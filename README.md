# Collateralised NFT-loan ledger — Dafny model

This project models the core of a ledger for loans secured by collateral
assets. It has four parts.

- **Interest maths** (`InterestMaths.dfy`) is fixed-point arithmetic at scale 10^6. Division truncates
  toward zero. Compounding is iterative: `fexp` and `accrueMany` truncate after every step.
  These are the helpers the repository uses to predict on-chain amounts. They are modelled on
  signed integers, as they are written. The on-chain variant uses unsigned words with checked
  subtraction (Solidity 0.8.7). It is modelled by `CheckedAccrueOnce`/`CheckedAccrueMany`, which
  are proved to agree with the signed helpers whenever the helpers stay non-negative.
- **Loans** (`Loans.dfy`) is a per-loan state machine `Uninitialized → Open → {Defaulted, PayedOff}`.
  Eras are `eraDuration * 43200` seconds long. Accrual always comes before payment, and each era
  has a minimum payment. `payDown` is front-loaded. Each operation is a function from a loan record
  to its next record or to the revert reason. The class `Ledger` keeps the table of records and
  overwrites one record in place per call.
- **AssetRegistry** (`AssetRegistry.dfy`) hands out sequential asset ids. Only the loan tracker
  may reserve an asset. A release clears the entry and calls the registrar's release hook.
- **LoanRightsRegistry** (`LoanRightsRegistry.dfy`) represents the lender and borrower of loan `i`
  as ownership tokens `2i` and `2i+1`. It has owner-wide operator approval, transfers, and burns
  that only the loan tracker may make. Its invariant: every balance equals the number of tokens
  owned.
- **PaymentsManager** (`PaymentsManager.dfy`) tracks, per token, the "stored" amount promised to
  parties and the per-party "pending" amounts. "Available" is the manager's balance minus stored.
  Its invariant: stored equals the sum of pending, for every token.

`Outcomes.dfy` holds the `Option`/`Result` types that carry revert reasons. `Loans`,
`AssetRegistry` and `LoanRightsRegistry` each have a `Reason` function that maps their error
values to revert strings.

- Every `Loans:` and `AssetRegistry:` string appears in the repository's tests.
- `Loans.Reason` renders the unsigned-underflow and division-by-zero failures as the Solidity
  panic codes 0x11 and 0x12. Those are panics, not revert strings.
- `LoanRightsRegistry.Reason`: only 'LLR: Not LoanTracker' and
  'ERC721: owner query for nonexistent token' appear in the repository. The other seven
  `ERC721:` strings are assumed. They follow the wording of OpenZeppelin's ERC721 (4.x), which
  the owner-query string matches.
- PaymentsManager has no `Reason` function. Its underflow is panic 0x11, and the reason for a
  skim larger than the available amount is not known.

Timestamps, callers and incoming token transfers are parameters of the operations. The model has no
clock, no `msg.sender` and no token contracts. The `Status` values 0..3 and the era unit 43200 are
the constants of `src/utils.js:5-11`.

## Model

| member | source | states |
|---|---|---|
| `InterestMaths.TDiv` | src/interest-maths.js:7-8 | big-number division truncates toward zero: the remainder has the sign of the dividend and is smaller than the divisor in magnitude |
| `InterestMaths.Fmul` | src/interest-maths.js:7 | `fmul(x, y)` is `x*y/SCALE` truncated: its product with SCALE lies within one SCALE of `x*y`, on the side toward zero |
| `InterestMaths.Fdiv` | src/interest-maths.js:8 | `fdiv(x, y)` is `x*SCALE/y` truncated; `y == 0` throws and is excluded |
| `InterestMaths.FmulByScale` | src/interest-maths.js:3-7 | `fmul(x, SCALE) == x` and `fmul(SCALE, x) == x` for every x |
| `InterestMaths.FdivByScale` | src/interest-maths.js:8 | `fdiv(x, SCALE) == x` for every x |
| `InterestMaths.ComputeFexp` | src/interest-maths.js:9-13 | the accumulating loop equals the recursion `fexp(x,0) = SCALE`, `fexp(x,n+1) = fmul(fexp(x,n), x)` |
| `InterestMaths.FexpOfScale` | src/interest-maths.js:9-13 | `fexp(SCALE, n) == SCALE` for every n, despite truncation at each step |
| `InterestMaths.Fiexp` | src/interest-maths.js:14 | a zero rate compounds to exactly 1.0 for every exponent, and exponent 1 gives `SCALE + r` |
| `InterestMaths.FiexpIsAccrualOfUnit` | src/interest-maths.js:14-26 | for r >= 0, `fiexp(r, n) == accrueMany(SCALE, r, n, 0)`: the compounding factor is the payment-free accrual of one unit |
| `InterestMaths.FiexpAtLeastUnit` | src/interest-maths.js:14 | a non-negative rate never compounds below 1.0 |
| `InterestMaths.AccrueOnce` | src/interest-maths.js:16-19 | for non-negative amount and rate, the result is at least `amount - payment`, and the interest added is at most `amount*r/SCALE` |
| `InterestMaths.AccrueBeforePayment` | src/interest-maths.js:16-19 | interest is taken on the pre-payment amount: paying p lowers the result by exactly p |
| `InterestMaths.AccrueManyOne` | src/interest-maths.js:21-26 | `accrueMany(a, r, 1, p) == accrueOnce(a, r, p)` |
| `InterestMaths.AccrueManyCompose` | src/interest-maths.js:21-26 | `accrueMany(accrueMany(a, r, m, p), r, n, p) == accrueMany(a, r, m+n, p)` |
| `InterestMaths.AccrueManyLast` | src/interest-maths.js:21-26 | the last of n+1 periods is `accrueOnce` applied to the first n |
| `InterestMaths.ComputeAccrueMany` | src/interest-maths.js:21-26 | the rebinding loop equals the recursion `accrueMany(a,r,0,p) = a`, `accrueMany(a,r,n+1,p) = accrueMany(accrueOnce(a,r,p), r, n, p)` |
| `InterestMaths.AccrueManyGrows` | src/interest-maths.js:21-26 | without payments a non-negative amount never shrinks at a non-negative rate |
| `InterestMaths.NegativeStaysNegative` | src/interest-maths.js:16-26 | once the amount is negative, further accrual with non-negative rate and payment keeps it negative |
| `InterestMaths.FmulOnePlusRate` | src/interest-maths.js:7-19 | for non-negative a and r, `fmul(a, SCALE + r) == accrueOnce(a, r, 0)` |
| `InterestMaths.CheckedAccrueOnce` | src/interest-maths.js:16-19 | the on-chain accrual succeeds exactly when the payment does not exceed amount plus interest |
| `InterestMaths.CheckedAccrueMany` | src/interest-maths.js:21-26 | zero periods return the amount; without payments the checked accrual never reverts and never shrinks the amount |
| `InterestMaths.CheckedAccrueManyAgrees` | src/interest-maths.js:21-26 | checked accrual over n periods succeeds exactly when the signed helper ends non-negative, and then gives the same amount |
| `Loans.NewLoan` | test/lib/Loans.test.js:26-70 | a zero era duration fails with 'Era duration 0', even when the principal is also 0; otherwise a zero principal fails with 'No principal'; a new loan is Open at era 0 and stores its terms and principal as given |
| `Loans.CurrentEra` | test/lib/Loans.test.js:75-103 | era 0 before the start; otherwise the unique k with `k*eraLength <= now - start < (k+1)*eraLength`; a zero era length divides by zero |
| `Loans.EraBetweenBoundaries` | test/lib/Loans.test.js:75-103 | every timestamp from `start + k*eraLength` up to one second before the next boundary is in era k |
| `Loans.EraMonotone` | test/lib/Loans.test.js:81-87 | the era never decreases as time goes on |
| `Loans.EraPastIff` | test/lib/Loans.test.js:285-292 | the era is past k exactly when `now >= start + (k+1)*eraLength` |
| `Loans.ApplyPayNext` | test/lib/Loans.test.js:115-148 | fails with 'Not open' on a loan that is not open and with 'Payment below min' when `p < minPayment`; otherwise outstanding becomes `accrueOnce(outstanding, rate, p)` (an underflow reverts) and one more era is paid |
| `Loans.ApplyPayDown` | test/lib/Loans.test.js:149-250 | fails with 'Total payment below min' when `total < minPayment*eras`; otherwise the first era is paid `total - minPayment*(eras-1)`, each later era exactly minPayment, and `eras` more eras are paid |
| `Loans.ApplyPayCurrent` | test/lib/Loans.test.js:168-175 | subtracts the payment without interest or minimum and keeps the era counter; fails with 'No current era to pay off' while no era is paid |
| `Loans.ApplyTryClose` | test/lib/Loans.test.js:267-283 | fails with 'Not open' unless the loan is open, then with 'Loan not payed off' unless nothing is outstanding; otherwise the loan becomes PayedOff |
| `Loans.ApplySetDefaulted` | test/lib/Loans.test.js:254-266 | an open loan becomes Defaulted; any other fails with 'Not open' |
| `Loans.ApplyTryDefault` | test/lib/Loans.test.js:267-308 | 'Not open', then 'Loan payed off' when nothing is outstanding; otherwise it succeeds exactly from maturity on, or (minimum payment > 0) from the start of the era after the last paid one; else 'Nothing past due' |
| `Loans.TerminalIsFrozen` | test/lib/Loans.test.js:260-266 | on a loan that is not open every operation fails with 'Not open' |
| `Loans.StepsKeepTerms` | test/lib/Loans.test.js:115-250 | successful operations keep duration, era duration, rate, start and minimum payment, and never move the era counter back |
| `Loans.RepeatPayNextAccrues` | test/lib/Loans.test.js:115-128 | n payNext calls with the same admissible payment are the checked accrual of n eras |
| `Loans.PayDownIsFrontLoadedPayNext` | test/lib/Loans.test.js:230-250 | payDown equals one payNext with the excess plus one minimum, followed by `eras-1` payNext calls of exactly minPayment, including when it fails |
| `Loans.UnpaidErasCompound` | test/lib/Loans.test.js:115-135 | without a minimum, n payNext(0) calls and payDown(0, n) both turn outstanding into `accrueMany(outstanding, rate, n)` and add n eras |
| `Loans.ExactPayoffCloses` | test/lib/Loans.test.js:267-283 | paying exactly `accrueOnce(outstanding, rate)` clears the loan; tryDefault then fails with 'Loan payed off', tryClose succeeds once and fails with 'Not open' after |
| `Loans.DefaultWithoutMinimumOnlyAtMaturity` | test/lib/Loans.test.js:293-308 | a loan without minimum payment defaults exactly from `start + duration*eraLength` on |
| `Loans.DefaultWhenBehind` | test/lib/Loans.test.js:285-292 | a loan with a minimum payment defaults once the current era is past the last paid one |
| `Loans.Ledger.constructor` | test/lib/Loans.test.js:14-18 | a fresh ledger holds no loans |
| `Loans.Ledger.GetLoan` | test/lib/Loans.test.js:41-51 | reads the stored record; an id never created reads as the zero (Uninitialized) record |
| `Loans.Ledger.GetMinPayment` | test/lib/Loans.test.js:40 | the minimum payment stored for the loan |
| `Loans.Ledger.GetCurrentEra` | test/lib/Loans.test.js:75-103 | the era of loan `id` at `now`, as `CurrentEra` |
| `Loans.Ledger.CreateLoan` | test/lib/Loans.test.js:26-70 | appends the new loan under the next id (0, 1, 2, ... in order); a failed creation leaves the table unchanged |
| `Loans.Ledger.PayNext` | test/lib/Loans.test.js:187-203 | overwrites the loan with the result of `ApplyPayNext`, or leaves the table unchanged and returns the failure |
| `Loans.Ledger.PayDown` | test/lib/Loans.test.js:212-250 | overwrites the loan with the result of `ApplyPayDown`, or leaves the table unchanged |
| `Loans.Ledger.PayCurrent` | test/lib/Loans.test.js:204-211 | overwrites the loan with the result of `ApplyPayCurrent`, or leaves the table unchanged |
| `Loans.Ledger.TryClose` | test/lib/Loans.test.js:267-283 | overwrites the loan with the result of `ApplyTryClose`, or leaves the table unchanged |
| `Loans.Ledger.SetDefaulted` | test/lib/Loans.test.js:254-259 | overwrites the loan with the result of `ApplySetDefaulted`, or leaves the table unchanged |
| `Loans.Ledger.TryDefault` | test/lib/Loans.test.js:284-308 | overwrites the loan with the result of `ApplyTryDefault`, or leaves the table unchanged |
| `AssetRegistry.Registry.constructor` | test/AssetRegsitry.test.js:21-29 | no assets yet: every id has registrar 0 and is not reserved |
| `AssetRegistry.Registry.RegistrarOf` | test/AssetRegsitry.test.js:26-36 | the registrar of an asset; 0 for an id never registered or already released |
| `AssetRegistry.Registry.Reserved` | test/AssetRegsitry.test.js:66-70 | whether the asset is reserved; in a valid registry only an asset with a registrar can be |
| `AssetRegistry.Registry.RegisterAsset` | test/AssetRegsitry.test.js:31-48 | any caller gets the next id, one no asset has had before, and becomes its registrar; totalAssets grows by one |
| `AssetRegistry.Registry.Reserve` | test/AssetRegsitry.test.js:89-117 | 'Not LoanTracker' for any other caller, 'Invalid asset' for an unregistered or released id, 'Already reserved' for a reserved one; otherwise the asset becomes reserved |
| `AssetRegistry.Registry.ReleaseAssetTo` | test/AssetRegsitry.test.js:51-86 | 'Invalid asset' without a registrar, 'Not LoanTracker' for a reserved asset and another caller; otherwise the entry is deleted and the registrar's hook is called with the id and the recipient |
| `LoanRightsRegistry.Registry.constructor` | test/LoanRightsRegistry.test.js:28-33 | no tokens issued and every balance 0 |
| `LoanRightsRegistry.Registry.OwnerOf` | test/LoanRightsRegistry.test.js:107-114 | the owner of an existing token; 'owner query for nonexistent token' otherwise |
| `LoanRightsRegistry.Registry.BalanceOf` | test/LoanRightsRegistry.test.js:31-33 | the number of tokens the address owns |
| `LoanRightsRegistry.Registry.IsApprovedForAll` | test/LoanRightsRegistry.test.js:69-70 | true exactly when the owner approved the operator for all its tokens |
| `LoanRightsRegistry.Registry.IsApprovedOrOwner` | test/LoanRightsRegistry.test.js:66-75 | true exactly for the owner and for operators the owner approved for all |
| `LoanRightsRegistry.Registry.LenderOf` | test/LoanRightsRegistry.test.js:54-56 | the current owner of token `2*id` |
| `LoanRightsRegistry.Registry.BorrowerOf` | test/LoanRightsRegistry.test.js:57-65 | the current owner of token `2*id+1` |
| `LoanRightsRegistry.Registry.IsLenderOf` | test/LoanRightsRegistry.test.js:66-75 | the lender token's owner or an operator that owner approved; a burned lender token fails with the operator-query error |
| `LoanRightsRegistry.Registry.IsBorrowerOf` | test/LoanRightsRegistry.test.js:54-65 | the borrower token's owner or an operator that owner approved; a burned borrower token fails with the operator-query error |
| `LoanRightsRegistry.Registry.Register` | test/LoanRightsRegistry.test.js:37-88 | 'LLR: Not LoanTracker' for other callers; otherwise loan id `totalTokensIssued/2`, tokens `2i` and `2i+1` minted to lender and borrower, each balance up by one, and totalTokensIssued up by two |
| `LoanRightsRegistry.Registry.SetApprovalForAll` | test/LoanRightsRegistry.test.js:69 | adds or removes the (owner, operator) approval |
| `LoanRightsRegistry.Registry.TransferFrom` | test/LoanRightsRegistry.test.js:61-75 | the owner or its operator moves the token to a nonzero address; balances follow |
| `LoanRightsRegistry.Registry.DeleteLenderOf` | test/LoanRightsRegistry.test.js:99-114 | loan-tracker only; burns token `2*id`, after which lenderOf fails with 'nonexistent token' |
| `LoanRightsRegistry.Registry.DeleteBorrowerOf` | test/LoanRightsRegistry.test.js:91-98 | loan-tracker only; burns token `2*id+1`, after which borrowerOf fails with 'nonexistent token' |
| `PaymentsManager.TotalUpdate` | test/lib/PaymentsManager.test.js:41-55 | changing one party's pending amount changes their sum by exactly the difference |
| `PaymentsManager.Manager.constructor` | test/lib/PaymentsManager.test.js:18-26 | nothing stored or pending for any token |
| `PaymentsManager.Manager.StoredBalanceOf` | test/lib/PaymentsManager.test.js:46 | the total promised for a token; 0 for a token never assigned |
| `PaymentsManager.Manager.PendingBalanceOf` | test/lib/PaymentsManager.test.js:44 | the amount promised to a party: its entry where one exists, and 0 otherwise |
| `PaymentsManager.Manager.PendingWithinStored` | test/lib/PaymentsManager.test.js:44-46 | no party has more pending than is stored for the token |
| `PaymentsManager.Manager.GetAvailable` | test/lib/PaymentsManager.test.js:30-40 | `available + stored == balance`; reverts when more is stored than held |
| `PaymentsManager.Manager.Receive` | test/lib/PaymentsManager.test.js:30-34 | tokens received raise the available amount by as much |
| `PaymentsManager.Manager.AssignAvailableTo` | test/lib/PaymentsManager.test.js:41-47 | pending of the party and stored rise by amount, available falls by amount, stored stays the sum of pending, other tokens unchanged |
| `PaymentsManager.Manager.ReleasePendingBalance` | test/lib/PaymentsManager.test.js:48-55 | pending and stored fall by amount and the token balance stays, so available rises by amount; other parties and tokens are unchanged; more than pending reverts with an underflow |
| `PaymentsManager.Manager.SkimTo` | test/lib/PaymentsManager.test.js:56-64 | amount moves to the recipient, stored unchanged, available falls by amount |
| `PaymentsManager.Manager.SkimAllTo` | test/lib/PaymentsManager.test.js:65-75 | exactly the available amount moves, leaving available at 0 and stored unchanged |

## Left out

- `toPerc` converts a float rate with `Math.floor(x * 1e6)` on doubles. Rates enter the model as already-scaled integers.
- InterestMaths.ComputeFexp: the exponent and the repetition count are natural numbers. A negative or fractional count given to the source's loops is not modelled.
- Loans.ApplyPayDown: with a minimum payment above zero, the repository asserts the result only to within 10 base units of the front-loaded iteration. The model states the exact iteration.
- Loans.ApplyPayDown: with `eras == 0`, `eras - 1` underflows in unsigned arithmetic, so the model reverts. The repository never exercises this case.
- Loans.ApplyPayNext: payments on a loan that is not open fail with 'Not open', as for close and default. The repository never exercises payments on such loans.
- Amounts, timestamps and ids are unbounded. The uint256 overflow reverts are not modelled; only underflow is.
- Events (`Registration`, `Reserved`, `AssetRelease`, `Registered`, `Transfer`) are not modelled.
- The registrar's release hook is recorded as a call. What a registrar does in it is not modelled: the ERC721 registrar's custody is outside this model. A registrar address without code, which makes the call revert on chain, is not modelled either.
- ERC721 details outside the loan rights are not modelled: per-token `approve`, the receiver check of `safeTransferFrom`, and `name`/`symbol`. A transfer is an owner-table update by the owner or its operator.
- Token contracts are not modelled. The manager's token ledger is a map. `Receive` stands for any transfer or mint into the manager. Besides `Receive`, only transfers out of the manager are modelled.
- The mock-only `setStoredBalance` backdoor is not modelled.
- PaymentsManager.Manager.ReleasePendingBalance: the release only updates the books. The tests expect the manager's token balance to stay the same after a release (test/lib/PaymentsManager.test.js:53, 61-62, 72-73), so the model moves no tokens to the party. Whether the contract also sends the released amount to the party is not visible in the tests; the model moves no tokens.
- LoanRightsRegistry.Reason: seven of its nine strings are assumed from OpenZeppelin's ERC721 wording, because the ERC721 base contract is not part of this model.
- PaymentsManager.Manager.SkimTo: the revert reason for skimming more than is available is not known. The model reports `ExceedsAvailable`.
- The repository does not show who may call the PaymentsManager operations, so the model takes no caller for them.
- The deployment scripts and the orchestrating loan tracker are not part of this model. Neither are the compiler settings or the test helper modules.
