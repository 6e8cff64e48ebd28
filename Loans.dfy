/** The per-loan ledger: loan records that accrue interest era by era, the
    payment operations that apply accrual before payment, and the closing
    and default transitions of the state machine
    Uninitialized -> Open -> {Defaulted, PayedOff}.

    Each operation is first a function from a loan record to the record it
    becomes (or the reason the call reverts); the `Ledger` class keeps the
    table of records and overwrites one of them in place per call. */
module Loans {
  import opened Outcomes
  import opened InterestMaths

  /** Length of one era unit in seconds (12 hours). */
  const ERA_UNIT: nat := 43200

  datatype Status = Uninitialized | Open | Defaulted | PayedOff

  datatype Loan = Loan(
    status: Status,
    duration: nat,       // eras until maturity
    eraDuration: nat,    // era units per era
    interestRate: nat,   // per-era rate, fixed point with scale 10^6
    startTime: nat,      // timestamp at which era 0 begins
    outstanding: nat,    // amount still owed, in token base units
    minPayment: nat,     // least payment per era
    lastPayedEra: nat)   // eras accrued so far

  /** The record read for an id that was never created. */
  const EmptyLoan := Loan(Uninitialized, 0, 0, 0, 0, 0, 0, 0)

  datatype LoanError =
    | EraDurationZero
    | NoPrincipal
    | PaymentBelowMin
    | TotalPaymentBelowMin
    | NoCurrentEra
    | NotOpen
    | NotPayedOff
    | LoanPayedOff
    | NothingPastDue
    | ArithmeticUnderflow   // checked subtraction below zero
    | DivisionByZero

  /** The revert reason each failure produces on chain. */
  function Reason(e: LoanError): string
  {
    match e
    case EraDurationZero => "Loans: Era duration 0"
    case NoPrincipal => "Loans: No principal"
    case PaymentBelowMin => "Loans: Payment below min"
    case TotalPaymentBelowMin => "Loans: Total payment below min"
    case NoCurrentEra => "Loans: No current era to pay off"
    case NotOpen => "Loans: Not open"
    case NotPayedOff => "Loans: Loan not payed off"
    case LoanPayedOff => "Loans: Loan payed off"
    case NothingPastDue => "Loans: Nothing past due"
    case ArithmeticUnderflow => "panic 0x11"
    case DivisionByZero => "panic 0x12"
  }

  /** Seconds per era. */
  function EraLength(l: Loan): nat
  {
    l.eraDuration * ERA_UNIT
  }

  /** Timestamp at which the loan's full duration has elapsed. */
  function Maturity(l: Loan): nat
  {
    l.startTime + l.duration * EraLength(l)
  }

  /** The terms fixed at creation, which no later operation changes. */
  predicate SameTerms(a: Loan, b: Loan)
  {
    && a.duration == b.duration
    && a.eraDuration == b.eraDuration
    && a.interestRate == b.interestRate
    && a.startTime == b.startTime
    && a.minPayment == b.minPayment
  }

  /** A new loan: the era duration is checked before the principal. */
  function NewLoan(duration: nat, eraDuration: nat, interestRate: nat, startTime: nat,
                   principal: nat, minPayment: nat): (r: Result<Loan, LoanError>)
    ensures eraDuration == 0 ==> r == Err(EraDurationZero)
    ensures eraDuration > 0 && principal == 0 ==> r == Err(NoPrincipal)
    ensures r.Ok? <==> eraDuration > 0 && principal > 0
    ensures r.Ok? ==> r.value.status == Open && r.value.lastPayedEra == 0
    ensures r.Ok? ==> r.value.outstanding == principal && r.value.minPayment == minPayment
    ensures r.Ok? ==> r.value.duration == duration && r.value.eraDuration == eraDuration
    ensures r.Ok? ==> r.value.interestRate == interestRate && r.value.startTime == startTime
  {
    if eraDuration == 0 then Err(EraDurationZero)
    else if principal == 0 then Err(NoPrincipal)
    else Ok(Loan(Open, duration, eraDuration, interestRate, startTime, principal, minPayment, 0))
  }

  /** The era `now` falls in: whole eras elapsed since the start, and 0
      before the start. A loan with no era length divides by zero. */
  function CurrentEra(l: Loan, now: nat): (r: Result<nat, LoanError>)
    ensures now < l.startTime ==> r == Ok(0)
    ensures now >= l.startTime && l.eraDuration == 0 ==> r == Err(DivisionByZero)
    ensures now >= l.startTime && l.eraDuration > 0 ==>
              r.Ok? && r.value * EraLength(l) <= now - l.startTime < (r.value + 1) * EraLength(l)
  {
    if now < l.startTime then Ok(0)
    else if l.eraDuration == 0 then Err(DivisionByZero)
    else
      var q := (now - l.startTime) / EraLength(l);
      FloorBounds(now - l.startTime, EraLength(l));
      Ok(q)
  }

  /** Euclidean division of naturals: the quotient is the floor. */
  lemma FloorBounds(x: nat, len: nat)
    requires len > 0
    ensures (x / len) * len <= x < (x / len + 1) * len
  {
    var q, rem := x / len, x % len;
    assert x == q * len + rem && rem < len;
    assert (q + 1) * len == q * len + len;
  }

  lemma MulMonotone(a: nat, b: nat, c: nat)
    requires a <= b
    ensures a * c <= b * c
  {
    assert b * c == a * c + (b - a) * c;
  }

  /** The whole quotient is determined by the floor bounds. */
  lemma FloorUnique(q1: nat, q2: nat, len: nat, x: nat)
    requires q1 * len <= x < (q1 + 1) * len
    requires q2 * len <= x < (q2 + 1) * len
    ensures q1 == q2
  {
    if q1 < q2 {
      MulMonotone(q1 + 1, q2, len);
    } else if q2 < q1 {
      MulMonotone(q2 + 1, q1, len);
    }
  }

  /** The era steps exactly at the boundaries start + k * eraLength: every
      timestamp from one boundary up to just before the next is in era k. */
  lemma EraBetweenBoundaries(l: Loan, k: nat, offset: nat)
    requires l.eraDuration > 0 && offset < EraLength(l)
    ensures CurrentEra(l, l.startTime + k * EraLength(l) + offset) == Ok(k)
  {
    var now := l.startTime + k * EraLength(l) + offset;
    var e := CurrentEra(l, now).value;
    assert (k + 1) * EraLength(l) == k * EraLength(l) + EraLength(l);
    FloorUnique(e, k, EraLength(l), now - l.startTime);
  }

  /** The era never goes back as time moves forward. */
  lemma EraMonotone(l: Loan, t1: nat, t2: nat)
    requires l.eraDuration > 0 && t1 <= t2
    ensures CurrentEra(l, t1).value <= CurrentEra(l, t2).value
  {
    if t1 >= l.startTime {
      var e1, e2 := CurrentEra(l, t1).value, CurrentEra(l, t2).value;
      if e2 < e1 {
        MulMonotone(e2 + 1, e1, EraLength(l));
      }
    }
  }

  /** Being in an era after era k means the boundary start + (k + 1) * eraLength
      has been reached. */
  lemma EraPastIff(l: Loan, now: nat, k: nat)
    ensures l.eraDuration > 0 ==>
              (CurrentEra(l, now).value > k <==> now >= l.startTime + (k + 1) * EraLength(l))
  {
    if l.eraDuration > 0 && now >= l.startTime {
      var e := CurrentEra(l, now).value;
      if e > k {
        MulMonotone(k + 1, e, EraLength(l));
      }
      if now >= l.startTime + (k + 1) * EraLength(l) && e <= k {
        MulMonotone(e + 1, k + 1, EraLength(l));
      }
    }
  }

  /** Pay for the next era: accrue one era on the outstanding amount, then
      subtract the payment, which must be at least the minimum. */
  function ApplyPayNext(l: Loan, payment: nat): (r: Result<Loan, LoanError>)
    ensures l.status != Open ==> r == Err(NotOpen)
    ensures l.status == Open && payment < l.minPayment ==> r == Err(PaymentBelowMin)
    ensures r.Ok? <==>
              l.status == Open && l.minPayment <= payment
              && AccrueOnce(l.outstanding, l.interestRate, payment) >= 0
    ensures r.Ok? ==> r.value == l.(outstanding := AccrueOnce(l.outstanding, l.interestRate, payment),
                                     lastPayedEra := l.lastPayedEra + 1)
  {
    if l.status != Open then Err(NotOpen)
    else if payment < l.minPayment then Err(PaymentBelowMin)
    else match CheckedAccrueOnce(l.outstanding, l.interestRate, payment)
      case None => Err(ArithmeticUnderflow)
      case Some(a) => Ok(l.(outstanding := a, lastPayedEra := l.lastPayedEra + 1))
  }

  /** Outstanding amount after paying down `eras` eras with `total`: the
      excess over minPayment * (eras - 1) is the payment of the first era,
      and each later era is paid exactly minPayment. */
  function FrontLoadedAccrual(amount: nat, rate: nat, total: nat, eras: nat, minPayment: nat): int
    requires eras >= 1
  {
    AccrueMany(AccrueOnce(amount, rate, total - minPayment * (eras - 1)), rate, eras - 1, minPayment)
  }

  /** Pay down several eras at once. */
  function ApplyPayDown(l: Loan, total: nat, eras: nat): (r: Result<Loan, LoanError>)
    ensures l.status != Open ==> r == Err(NotOpen)
    ensures l.status == Open && total < l.minPayment * eras ==> r == Err(TotalPaymentBelowMin)
    ensures r.Ok? <==>
              l.status == Open && l.minPayment * eras <= total && eras >= 1
              && FrontLoadedAccrual(l.outstanding, l.interestRate, total, eras, l.minPayment) >= 0
    ensures r.Ok? ==> r.value == l.(outstanding := FrontLoadedAccrual(l.outstanding, l.interestRate, total, eras, l.minPayment),
                                     lastPayedEra := l.lastPayedEra + eras)
  {
    if l.status != Open then Err(NotOpen)
    else if total < l.minPayment * eras then Err(TotalPaymentBelowMin)
    else if eras == 0 then Err(ArithmeticUnderflow)
    else
      var rest := l.minPayment * (eras - 1);
      assert l.minPayment * eras == rest + l.minPayment;
      var first := total - rest;
      match CheckedAccrueOnce(l.outstanding, l.interestRate, first)
      case None =>
        NegativeStaysNegative(AccrueOnce(l.outstanding, l.interestRate, first),
                              l.interestRate, eras - 1, l.minPayment);
        Err(ArithmeticUnderflow)
      case Some(a) =>
        CheckedAccrueManyAgrees(a, l.interestRate, eras - 1, l.minPayment);
        match CheckedAccrueMany(a, l.interestRate, eras - 1, l.minPayment)
        case None => Err(ArithmeticUnderflow)
        case Some(b) => Ok(l.(outstanding := b, lastPayedEra := l.lastPayedEra + eras))
  }

  /** Pay off principal within eras already accrued: no interest, no minimum,
      and the era counter stays put. Fails before any era has been accrued. */
  function ApplyPayCurrent(l: Loan, payment: nat): (r: Result<Loan, LoanError>)
    ensures l.status != Open ==> r == Err(NotOpen)
    ensures l.status == Open && l.lastPayedEra == 0 ==> r == Err(NoCurrentEra)
    ensures r.Ok? <==> l.status == Open && l.lastPayedEra > 0 && payment <= l.outstanding
    ensures r.Ok? ==> r.value.outstanding + payment == l.outstanding
    ensures r.Ok? ==> r.value.lastPayedEra == l.lastPayedEra && r.value.status == Open && SameTerms(l, r.value)
  {
    if l.status != Open then Err(NotOpen)
    else if l.lastPayedEra == 0 then Err(NoCurrentEra)
    else if payment > l.outstanding then Err(ArithmeticUnderflow)
    else Ok(l.(outstanding := l.outstanding - payment))
  }

  /** Close a loan that has been paid off. */
  function ApplyTryClose(l: Loan): (r: Result<Loan, LoanError>)
    ensures l.status != Open ==> r == Err(NotOpen)
    ensures l.status == Open && l.outstanding != 0 ==> r == Err(NotPayedOff)
    ensures r.Ok? <==> l.status == Open && l.outstanding == 0
    ensures r.Ok? ==> r.value == l.(status := PayedOff)
  {
    if l.status != Open then Err(NotOpen)
    else if l.outstanding != 0 then Err(NotPayedOff)
    else Ok(l.(status := PayedOff))
  }

  /** Default a loan unconditionally, as long as it is open. */
  function ApplySetDefaulted(l: Loan): (r: Result<Loan, LoanError>)
    ensures r.Ok? <==> l.status == Open
    ensures r.Err? ==> r.error == NotOpen
    ensures r.Ok? ==> r.value == l.(status := Defaulted)
  {
    if l.status != Open then Err(NotOpen) else Ok(l.(status := Defaulted))
  }

  /** Default a loan that is past due: its full duration has elapsed, or it
      has a minimum payment and an era after the last paid one has begun. A
      loan without a minimum payment is never behind merely because eras
      have elapsed. */
  function ApplyTryDefault(l: Loan, now: nat): (r: Result<Loan, LoanError>)
    ensures l.status != Open ==> r == Err(NotOpen)
    ensures l.status == Open && l.outstanding == 0 ==> r == Err(LoanPayedOff)
    ensures r.Ok? ==> r.value == l.(status := Defaulted)
    ensures l.status == Open && l.outstanding > 0 && l.eraDuration > 0 ==>
              (r.Ok? <==>
                 now >= Maturity(l)
                 || (l.minPayment > 0 && now >= l.startTime + (l.lastPayedEra + 1) * EraLength(l)))
    ensures r.Err? && l.status == Open && l.outstanding > 0 && l.eraDuration > 0 ==> r.error == NothingPastDue
  {
    if l.status != Open then Err(NotOpen)
    else if l.outstanding == 0 then Err(LoanPayedOff)
    else match CurrentEra(l, now)
      case Err(e) => Err(e)
      case Ok(era) =>
        EraPastIff(l, now, l.lastPayedEra);
        if now >= Maturity(l) || (l.minPayment > 0 && era > l.lastPayedEra)
        then Ok(l.(status := Defaulted))
        else Err(NothingPastDue)
  }

  /** A loan that is not open is frozen: every operation on it reverts with
      'Not open' and nothing about it can change. */
  lemma TerminalIsFrozen(l: Loan, payment: nat, total: nat, eras: nat, now: nat)
    requires l.status != Open
    ensures ApplyPayNext(l, payment) == Err(NotOpen)
    ensures ApplyPayDown(l, total, eras) == Err(NotOpen)
    ensures ApplyPayCurrent(l, payment) == Err(NotOpen)
    ensures ApplyTryClose(l) == Err(NotOpen)
    ensures ApplySetDefaulted(l) == Err(NotOpen)
    ensures ApplyTryDefault(l, now) == Err(NotOpen)
  {
  }

  /** Every successful operation keeps the loan's terms, never moves the era
      counter back, and leaves the loan either open or terminal. */
  lemma StepsKeepTerms(l: Loan, payment: nat, total: nat, eras: nat, now: nat)
    ensures ApplyPayNext(l, payment).Ok? ==>
              SameTerms(l, ApplyPayNext(l, payment).value)
              && ApplyPayNext(l, payment).value.lastPayedEra == l.lastPayedEra + 1
    ensures ApplyPayDown(l, total, eras).Ok? ==>
              SameTerms(l, ApplyPayDown(l, total, eras).value)
              && ApplyPayDown(l, total, eras).value.lastPayedEra > l.lastPayedEra
    ensures ApplyPayCurrent(l, payment).Ok? ==>
              SameTerms(l, ApplyPayCurrent(l, payment).value)
    ensures ApplyTryClose(l).Ok? ==> SameTerms(l, ApplyTryClose(l).value)
    ensures ApplySetDefaulted(l).Ok? ==> SameTerms(l, ApplySetDefaulted(l).value)
    ensures ApplyTryDefault(l, now).Ok? ==> SameTerms(l, ApplyTryDefault(l, now).value)
  {
  }

  /** `n` consecutive payNext calls with the same payment. */
  function RepeatPayNext(l: Loan, payment: nat, n: nat): Result<Loan, LoanError>
    decreases n
  {
    if n == 0 then Ok(l)
    else match ApplyPayNext(l, payment)
      case Err(e) => Err(e)
      case Ok(next) => RepeatPayNext(next, payment, n - 1)
  }

  /** Repeating payNext on an open loan with an admissible payment is the
      checked accrual of as many eras. */
  lemma {:induction false} RepeatPayNextAccrues(l: Loan, payment: nat, n: nat)
    requires l.status == Open && l.minPayment <= payment
    ensures RepeatPayNext(l, payment, n) ==
              match CheckedAccrueMany(l.outstanding, l.interestRate, n, payment)
              case None => Err(ArithmeticUnderflow)
              case Some(b) => Ok(l.(outstanding := b, lastPayedEra := l.lastPayedEra + n))
    decreases n
  {
    if n > 0 {
      match CheckedAccrueOnce(l.outstanding, l.interestRate, payment)
      case None =>
      case Some(a) =>
        RepeatPayNextAccrues(l.(outstanding := a, lastPayedEra := l.lastPayedEra + 1), payment, n - 1);
    }
  }

  /** payDown is front-loaded payNext: the first era is paid everything above
      minPayment * (eras - 1), and the remaining eras are paid minPayment each. */
  lemma PayDownIsFrontLoadedPayNext(l: Loan, total: nat, eras: nat)
    requires l.status == Open && l.minPayment * eras <= total && eras >= 1
    ensures ApplyPayDown(l, total, eras) ==
              match ApplyPayNext(l, total - l.minPayment * (eras - 1))
              case Err(e) => Err(e)
              case Ok(next) => RepeatPayNext(next, l.minPayment, eras - 1)
  {
    var first := total - l.minPayment * (eras - 1);
    assert l.minPayment * eras == l.minPayment * (eras - 1) + l.minPayment;
    match ApplyPayNext(l, first)
    case Err(e) =>
    case Ok(next) =>
      RepeatPayNextAccrues(next, l.minPayment, eras - 1);
  }

  /** Without a minimum payment and with nothing paid, payNext n times and
      payDown over n eras both compound the outstanding amount n times. */
  lemma UnpaidErasCompound(l: Loan, n: nat)
    requires l.status == Open && l.minPayment == 0
    ensures RepeatPayNext(l, 0, n).Ok?
    ensures RepeatPayNext(l, 0, n).value.outstanding == AccrueMany(l.outstanding, l.interestRate, n, 0)
    ensures RepeatPayNext(l, 0, n).value.lastPayedEra == l.lastPayedEra + n
    ensures n >= 1 ==> ApplyPayDown(l, 0, n) == RepeatPayNext(l, 0, n)
  {
    RepeatPayNextAccrues(l, 0, n);
    AccrueManyGrows(l.outstanding, l.interestRate, n);
    CheckedAccrueManyAgrees(l.outstanding, l.interestRate, n, 0);
    if n >= 1 {
      PayDownIsFrontLoadedPayNext(l, 0, n);
      AccrueManyGrows(AccrueOnce(l.outstanding, l.interestRate, 0), l.interestRate, n - 1);
      CheckedAccrueManyAgrees(AccrueOnce(l.outstanding, l.interestRate, 0), l.interestRate, n - 1, 0);
    }
  }

  /** Paying exactly one era's accrued amount clears the loan; it can then
      be closed once, can no longer be defaulted, and a second close fails. */
  lemma ExactPayoffCloses(l: Loan, now: nat)
    requires l.status == Open && l.minPayment <= AccrueOnce(l.outstanding, l.interestRate, 0)
    ensures ApplyPayNext(l, AccrueOnce(l.outstanding, l.interestRate, 0)).Ok?
    ensures var paid := ApplyPayNext(l, AccrueOnce(l.outstanding, l.interestRate, 0)).value;
            && paid.outstanding == 0
            && ApplyTryDefault(paid, now) == Err(LoanPayedOff)
            && ApplyTryClose(paid) == Ok(paid.(status := PayedOff))
            && ApplyTryClose(paid.(status := PayedOff)) == Err(NotOpen)
  {
  }

  /** A loan without a minimum payment can be defaulted exactly from its
      maturity on, however many eras are unpaid before that. */
  lemma DefaultWithoutMinimumOnlyAtMaturity(l: Loan, now: nat)
    requires l.status == Open && l.outstanding > 0 && l.eraDuration > 0 && l.minPayment == 0
    ensures ApplyTryDefault(l, now).Ok? <==> now >= Maturity(l)
  {
  }

  /** A loan with a minimum payment can be defaulted as soon as the era after
      the last paid one has begun. */
  lemma DefaultWhenBehind(l: Loan, now: nat)
    requires l.status == Open && l.outstanding > 0 && l.eraDuration > 0 && l.minPayment > 0
    requires CurrentEra(l, now).value > l.lastPayedEra
    ensures ApplyTryDefault(l, now) == Ok(l.(status := Defaulted))
  {
    EraPastIff(l, now, l.lastPayedEra);
  }

  /** The table of loans kept by the contract, one record per id. */
  class Ledger {
    var loans: seq<Loan>

    /** Every created record has left Uninitialized and has a positive era length. */
    ghost predicate Valid()
      reads this
    {
      forall i | 0 <= i < |loans| :: loans[i].status != Uninitialized && loans[i].eraDuration > 0
    }

    constructor()
      ensures Valid() && loans == []
    {
      loans := [];
    }

    /** The record of `id`; an id never created reads as the empty record. */
    function GetLoan(id: nat): (l: Loan)
      reads this
      ensures id < |loans| ==> l == loans[id]
      ensures id >= |loans| ==> l == EmptyLoan
    {
      if id < |loans| then loans[id] else EmptyLoan
    }

    function GetMinPayment(id: nat): (m: nat)
      reads this
      ensures m == GetLoan(id).minPayment
    {
      GetLoan(id).minPayment
    }

    function GetCurrentEra(id: nat, now: nat): (r: Result<nat, LoanError>)
      reads this
      requires Valid()
      ensures id < |loans| && now >= loans[id].startTime ==>
                r.Ok? && r.value * EraLength(loans[id]) <= now - loans[id].startTime
                      < (r.value + 1) * EraLength(loans[id])
      ensures id < |loans| && now < loans[id].startTime ==> r == Ok(0)
      ensures id >= |loans| ==> r == Err(DivisionByZero)
    {
      CurrentEra(GetLoan(id), now)
    }

    /** Append a new loan; its id is the number of loans created before it. */
    method CreateLoan(duration: nat, eraDuration: nat, interestRate: nat, startTime: nat,
                      principal: nat, minPayment: nat) returns (r: Result<nat, LoanError>)
      requires Valid()
      modifies this
      ensures Valid()
      ensures match NewLoan(duration, eraDuration, interestRate, startTime, principal, minPayment)
              case Ok(l) => r == Ok(|old(loans)|) && loans == old(loans) + [l]
              case Err(e) => r == Err(e) && loans == old(loans)
    {
      var created := NewLoan(duration, eraDuration, interestRate, startTime, principal, minPayment);
      match created
      case Ok(l) =>
        r := Ok(|loans|);
        loans := loans + [l];
      case Err(e) =>
        r := Err(e);
    }

    /** Overwrite record `id` with the outcome of an operation on it. */
    method Commit(id: nat, outcome: Result<Loan, LoanError>) returns (r: Result<(), LoanError>)
      requires Valid()
      requires outcome.Ok? ==> id < |loans| && outcome.value.status != Uninitialized
                                && outcome.value.eraDuration == loans[id].eraDuration
      modifies this
      ensures Valid()
      ensures match outcome
              case Ok(l) => r == Ok(()) && loans == old(loans)[id := l]
              case Err(e) => r == Err(e) && loans == old(loans)
    {
      match outcome
      case Ok(l) =>
        loans := loans[id := l];
        r := Ok(());
      case Err(e) =>
        r := Err(e);
    }

    method PayNext(id: nat, payment: nat) returns (r: Result<(), LoanError>)
      requires Valid()
      modifies this
      ensures Valid()
      ensures match ApplyPayNext(old(GetLoan(id)), payment)
              case Ok(l) => r == Ok(()) && id < |old(loans)| && loans == old(loans)[id := l]
              case Err(e) => r == Err(e) && loans == old(loans)
    {
      r := Commit(id, ApplyPayNext(GetLoan(id), payment));
    }

    method PayDown(id: nat, total: nat, eras: nat) returns (r: Result<(), LoanError>)
      requires Valid()
      modifies this
      ensures Valid()
      ensures match ApplyPayDown(old(GetLoan(id)), total, eras)
              case Ok(l) => r == Ok(()) && id < |old(loans)| && loans == old(loans)[id := l]
              case Err(e) => r == Err(e) && loans == old(loans)
    {
      r := Commit(id, ApplyPayDown(GetLoan(id), total, eras));
    }

    method PayCurrent(id: nat, payment: nat) returns (r: Result<(), LoanError>)
      requires Valid()
      modifies this
      ensures Valid()
      ensures match ApplyPayCurrent(old(GetLoan(id)), payment)
              case Ok(l) => r == Ok(()) && id < |old(loans)| && loans == old(loans)[id := l]
              case Err(e) => r == Err(e) && loans == old(loans)
    {
      r := Commit(id, ApplyPayCurrent(GetLoan(id), payment));
    }

    method TryClose(id: nat) returns (r: Result<(), LoanError>)
      requires Valid()
      modifies this
      ensures Valid()
      ensures match ApplyTryClose(old(GetLoan(id)))
              case Ok(l) => r == Ok(()) && id < |old(loans)| && loans == old(loans)[id := l]
              case Err(e) => r == Err(e) && loans == old(loans)
    {
      r := Commit(id, ApplyTryClose(GetLoan(id)));
    }

    method SetDefaulted(id: nat) returns (r: Result<(), LoanError>)
      requires Valid()
      modifies this
      ensures Valid()
      ensures match ApplySetDefaulted(old(GetLoan(id)))
              case Ok(l) => r == Ok(()) && id < |old(loans)| && loans == old(loans)[id := l]
              case Err(e) => r == Err(e) && loans == old(loans)
    {
      r := Commit(id, ApplySetDefaulted(GetLoan(id)));
    }

    method TryDefault(id: nat, now: nat) returns (r: Result<(), LoanError>)
      requires Valid()
      modifies this
      ensures Valid()
      ensures match ApplyTryDefault(old(GetLoan(id)), now)
              case Ok(l) => r == Ok(()) && id < |old(loans)| && loans == old(loans)[id := l]
              case Err(e) => r == Err(e) && loans == old(loans)
    {
      r := Commit(id, ApplyTryDefault(GetLoan(id), now));
    }
  }

  /** Creation checks the era duration first; a new loan cannot be paid
      current before an era is accrued; payNext with nothing paid compounds
      one era and then payCurrent is allowed below the minimum. */
  method CreateThenPay(rate: nat)
  {
    var ledger := new Ledger();
    var bad := ledger.CreateLoan(10, 0, rate, 0, 0, 0);
    assert bad == Err(EraDurationZero);
    var noPrincipal := ledger.CreateLoan(10, 1, rate, 0, 0, 0);
    assert noPrincipal == Err(NoPrincipal);
    var id := ledger.CreateLoan(10, 1, rate, 23, 100, 0);
    assert id == Ok(0) && ledger.GetLoan(0).status == Open;
    var early := ledger.PayCurrent(0, 1);
    assert early == Err(NoCurrentEra);
    var next := ledger.PayNext(0, 0);
    assert next.Ok? && ledger.GetLoan(0).lastPayedEra == 1;
    assert ledger.GetLoan(0).outstanding == AccrueOnce(100, rate, 0);
    var current := ledger.PayCurrent(0, 1);
    assert current.Ok? && ledger.GetLoan(0).lastPayedEra == 1;
    assert ledger.GetCurrentEra(0, 22) == Ok(0);
  }
}
