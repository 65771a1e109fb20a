/** The partner referral: a frozen record moved by transition methods, and the commission its
    payment events earn. */
module Referral {
  import opened Base

  datatype Status = Qualified | Referred | Introduced | Active | Closed | Ended

  datatype Payment = Payment(id: string, revenue: real)

  /** `complete`: every text field an introduction needs is filled in. */
  datatype Record = Record(complete: bool, status: Status, referralId: string, confirmed: bool, payments: seq<Payment>)

  /** A requested transition; `id` is None when the caller passes none, `amount` is None when it
      is not a number. */
  datatype Transition =
    | MarkReferred(id: Option<string>)
    | MarkIntroduced(id: Option<string>)
    | ConfirmPartner(id: Option<string>)
    | RecordPayment(event: string, amount: Option<real>)
    | MarkClosed
    | MarkEnded

  predicate Space(c: char) { c == ' ' || c == '\t' || c == '\n' || c == '\r' }

  function StripLeft(s: string): string { if s != "" && Space(s[0]) then StripLeft(s[1..]) else s }

  function StripRight(s: string): string { if s != "" && Space(s[|s| - 1]) then StripRight(s[..|s| - 1]) else s }

  function Strip(s: string): string { StripRight(StripLeft(s)) }

  /** `referral_id.strip() if referral_id else self.referral_id`. */
  function Normalized(id: Option<string>, current: string): string {
    if id.Some? && id.value != "" then Strip(id.value) else current
  }

  predicate Recorded(r: Record, id: string) { exists i | 0 <= i < |r.payments| :: r.payments[i].id == id }

  /** The referral after a transition; None when the method raises. */
  function Apply(r: Record, t: Transition): Option<Record> {
    match t
    case MarkReferred(id) =>
      if r.status.Qualified? || r.status.Referred? then Some(r.(status := Referred, referralId := Normalized(id, r.referralId))) else None
    case MarkIntroduced(id) =>
      if (r.status.Qualified? || r.status.Referred?) && r.complete && r.referralId == "" then
        Some(r.(status := Introduced, referralId := Normalized(id, r.referralId)))
      else None
    case ConfirmPartner(id) =>
      if r.status.Introduced? && Normalized(id, r.referralId) != "" then
        Some(r.(status := Active, referralId := Normalized(id, r.referralId), confirmed := true))
      else None
    case RecordPayment(event, amount) =>
      if r.status.Active? && r.referralId != "" && r.confirmed && Strip(event) != "" && !Recorded(r, Strip(event))
         && amount.Some? && amount.value > 0.0
      then Some(r.(payments := r.payments + [Payment(Strip(event), amount.value)])) else None
    case MarkClosed => if r.status.Active? then Some(r.(status := Closed)) else None
    case MarkEnded => if r.status.Active? || r.status.Closed? then Some(r.(status := Ended)) else None
  }

  /** A chain of attempted transitions: one that raises leaves the referral as it was. */
  function Chain(r: Record, ts: seq<Transition>): Record
    decreases |ts|
  {
    if ts == [] then r else Chain(if Apply(r, ts[0]).Some? then Apply(r, ts[0]).value else r, ts[1..])
  }

  // ------------------------------------------------------------------ transitions

  /** Text x is the middle of s, with nothing but white space around it and none at its ends. */
  ghost predicate Trimmed(s: string, x: string) {
    exists i, j :: 0 <= i <= j <= |s| && x == s[i..j] && Blank(s[..i]) && Blank(s[j..]) && NoBlankEnds(x)
  }

  ghost predicate Blank(s: string) { forall k :: 0 <= k < |s| ==> s[k] in {' ', '\t', '\n', '\r'} }

  ghost predicate NoBlankEnds(x: string) {
    x != "" ==> x[0] !in {' ', '\t', '\n', '\r'} && x[|x| - 1] !in {' ', '\t', '\n', '\r'}
  }

  lemma {:induction false} LeftStripped(s: string) returns (i: nat)
    ensures i <= |s| && StripLeft(s) == s[i..] && Blank(s[..i]) && (i < |s| ==> !Space(s[i]))
  {
    if s != "" && Space(s[0]) {
      var k := LeftStripped(s[1..]);
      i := k + 1;
      assert s[1..][k..] == s[i..] && s[..i] == [s[0]] + s[1..][..k];
    } else {
      i := 0;
    }
  }

  lemma {:induction false} RightStripped(s: string) returns (j: nat)
    ensures j <= |s| && StripRight(s) == s[..j] && Blank(s[j..]) && (j > 0 ==> !Space(s[j - 1]))
  {
    if s != "" && Space(s[|s| - 1]) {
      var front := s[..|s| - 1];
      j := RightStripped(front);
      assert front[..j] == s[..j] && s[j..] == front[j..] + [s[|s| - 1]];
    } else {
      j := |s|;
      assert s[..j] == s;
    }
  }

  lemma StripTrims(s: string)
    ensures Trimmed(s, Strip(s))
  {
    var i := LeftStripped(s);
    var left := s[i..];
    var k := RightStripped(left);
    var j := i + k;
    assert s[i..j] == left[..k] && s[j..] == left[k..];
    assert Strip(s) == s[i..j] && Blank(s[..i]) && Blank(s[j..]);
    if Strip(s) != "" { assert Strip(s)[0] == s[i] && Strip(s)[|Strip(s)| - 1] == left[k - 1]; }
    assert NoBlankEnds(Strip(s));
  }

  /** A payment is recorded exactly in an active, confirmed referral with an id, for a positive
      amount under an event id that is not blank and not yet recorded; the referral then ends in
      that id with that amount and is otherwise unchanged. */
  lemma PaymentRecordedExactlyWhen(r: Record, event: string, amount: Option<real>)
    ensures var next, id := Apply(r, RecordPayment(event, amount)), Strip(event);
      && Trimmed(event, id)
      && (next.Some? <==> r.status.Active? && r.confirmed && r.referralId != "" && amount.Some? && amount.value > 0.0
                          && id != "" && forall i :: 0 <= i < |r.payments| ==> r.payments[i].id != id)
      && (next.Some? ==> next.value == r.(payments := r.payments + [Payment(id, amount.value)]))
  {
    StripTrims(event);
  }

  /** The id a transition leaves: the one it brings, trimmed, unless it brings none. */
  ghost predicate IdAfter(before: string, id: Option<string>, after: string) {
    if id.None? || id.value == "" then after == before else Trimmed(id.value, after)
  }

  /** The other transitions go through exactly from these states and leave exactly these. */
  lemma ReferredExactlyWhen(r: Record, id: Option<string>)
    ensures var next := Apply(r, MarkReferred(id));
      && (next.Some? <==> r.status.Qualified? || r.status.Referred?)
      && (next.Some? ==> next.value == r.(status := Referred, referralId := next.value.referralId) && IdAfter(r.referralId, id, next.value.referralId))
  {
    NormalizedIsTrimmed(id, r.referralId);
  }

  lemma IntroducedExactlyWhen(r: Record, id: Option<string>)
    ensures var next := Apply(r, MarkIntroduced(id));
      && (next.Some? <==> (r.status.Qualified? || r.status.Referred?) && r.complete && r.referralId == "")
      && (next.Some? ==> next.value == r.(status := Introduced, referralId := next.value.referralId) && IdAfter("", id, next.value.referralId))
  {
    NormalizedIsTrimmed(id, r.referralId);
  }

  lemma ConfirmedExactlyWhen(r: Record, id: Option<string>)
    ensures var next, referralId := Apply(r, ConfirmPartner(id)), Normalized(id, r.referralId);
      && IdAfter(r.referralId, id, referralId)
      && (next.Some? <==> r.status.Introduced? && referralId != "")
      && (next.Some? ==> next.value == r.(status := Active, confirmed := true, referralId := referralId))
  {
    NormalizedIsTrimmed(id, r.referralId);
  }

  lemma EndedExactlyWhen(r: Record)
    ensures var next := Apply(r, MarkClosed); (next.Some? <==> r.status.Active?) && (next.Some? ==> next.value == r.(status := Closed))
    ensures var next := Apply(r, MarkEnded);
      (next.Some? <==> r.status.Active? || r.status.Closed?) && (next.Some? ==> next.value == r.(status := Ended))
  {}

  lemma NormalizedIsTrimmed(id: Option<string>, before: string)
    ensures IdAfter(before, id, Normalized(id, before))
  {
    if id.Some? { StripTrims(id.value); }
  }

  /** Payments exist only in confirmed referrals that are active or past that, each under its
      own id and for a positive amount. */
  ghost predicate Sound(r: Record) {
    && (r.payments != [] ==> (r.status.Active? || r.status.Closed? || r.status.Ended?) && r.confirmed && r.referralId != "")
    && (forall i :: 0 <= i < |r.payments| ==> r.payments[i].revenue > 0.0 && r.payments[i].id != "")
    && (forall i, j :: 0 <= i < j < |r.payments| ==> r.payments[i].id != r.payments[j].id)
  }

  function Stage(s: Status): nat {
    match s
    case Qualified => 0
    case Referred => 0
    case Introduced => 1
    case Active => 2
    case Closed => 3
    case Ended => 4
  }

  /** Over any chain of transitions payment ids stay distinct, payments exist only in confirmed
      referrals from active on, they are only appended, and the referral never goes back a
      stage. */
  lemma {:induction false} ChainsStaySound(r: Record, ts: seq<Transition>)
    requires Sound(r)
    ensures Sound(Chain(r, ts)) && r.payments <= Chain(r, ts).payments && Stage(r.status) <= Stage(Chain(r, ts).status)
    decreases |ts|
  {
    if ts != [] {
      var next := if Apply(r, ts[0]).Some? then Apply(r, ts[0]).value else r;
      assert Sound(next) && r.payments <= next.payments;
      ChainsStaySound(next, ts[1..]);
    }
  }

  /** Recording the same payment again raises and changes nothing, in every continuation. */
  lemma PaymentsAreRecordedOnce(r: Record, event: string, amount: Option<real>, ts: seq<Transition>, again: Option<real>)
    requires Sound(r) && Apply(r, RecordPayment(event, amount)).Some?
    ensures var later := Chain(Apply(r, RecordPayment(event, amount)).value, ts);
      Apply(later, RecordPayment(event, again)).None?
  {
    var next := Apply(r, RecordPayment(event, amount)).value;
    assert next.payments[|r.payments|].id == Strip(event);
    ChainsStaySound(next, ts);
    var later := Chain(next, ts);
    assert later.payments[|r.payments|] == next.payments[|r.payments|];
  }

  // ------------------------------------------------------------------- commission

  /** `quantize` under the default context: round half to even. */
  function RoundHalfEven(x: real): int {
    var f := x.Floor;
    var d := x - f as real;
    if d < 0.5 then f else if d > 0.5 then f + 1 else if f % 2 == 0 then f else f + 1
  }

  /** The commission of one payment in whole cents: 20% of the revenue, quantized. */
  function CommissionCents(p: Payment): int { RoundHalfEven(p.revenue * 0.20 * 100.0) }

  function Revenue(ps: seq<Payment>): real { if ps == [] then 0.0 else Revenue(ps[..|ps| - 1]) + ps[|ps| - 1].revenue }

  function EarnedCents(ps: seq<Payment>): int { if ps == [] then 0 else EarnedCents(ps[..|ps| - 1]) + CommissionCents(ps[|ps| - 1]) }

  /** Rounding moves a value by at most a half, and an exact half to the even neighbour. */
  lemma RoundingError(x: real)
    ensures -0.5 <= RoundHalfEven(x) as real - x <= 0.5
    ensures RoundHalfEven(x) as real - x in {-0.5, 0.5} ==> RoundHalfEven(x) % 2 == 0
  {}

  /** After n payments the commission earned is within half a cent per payment of 20% of the
      revenue received. */
  lemma {:induction false} CommissionIsWithinHalfACentEach(ps: seq<Payment>)
    ensures var error := EarnedCents(ps) as real / 100.0 - 0.20 * Revenue(ps);
      -0.005 * |ps| as real <= error <= 0.005 * |ps| as real
  {
    if ps != [] {
      var front, last := ps[..|ps| - 1], ps[|ps| - 1];
      CommissionIsWithinHalfACentEach(front);
      RoundingError(last.revenue * 0.20 * 100.0);
      assert (|front| + 1) as real == |front| as real + 1.0;
      assert EarnedCents(ps) as real == EarnedCents(front) as real + CommissionCents(last) as real;
    }
  }

  /** The bound is attained: 20% of 0.025 is half a cent, which rounds to the even zero. */
  lemma BoundIsTight()
    ensures EarnedCents([Payment("e", 0.025)]) as real / 100.0 - 0.20 * Revenue([Payment("e", 0.025)]) == -0.005
  {
    assert [Payment("e", 0.025)][..0] == [];
  }

  /** Over any chain of transitions from a payment-free referral: a payment exists only in a
      confirmed referral that is active, closed or ended, payment ids are distinct, and the
      commission earned on n payments is not negative and within 0.005*n of 20% of the revenue. */
  lemma PaymentFreeChains(r: Record, ts: seq<Transition>)
    requires r.payments == []
    ensures var end := Chain(r, ts);
      && (end.payments != [] ==> end.confirmed && (end.status.Active? || end.status.Closed? || end.status.Ended?))
      && (forall i, j :: 0 <= i < j < |end.payments| ==> end.payments[i].id != end.payments[j].id)
      && EarnedCents(end.payments) >= 0
      && var error := EarnedCents(end.payments) as real / 100.0 - 0.20 * Revenue(end.payments);
         -0.005 * |end.payments| as real <= error <= 0.005 * |end.payments| as real
  {
    ChainsStaySound(r, ts);
    CommissionIsWithinHalfACentEach(Chain(r, ts).payments);
    CommissionIsNotNegative(Chain(r, ts).payments);
  }

  /** Positive revenue never earns a negative commission. */
  lemma {:induction false} CommissionIsNotNegative(ps: seq<Payment>)
    requires forall i :: 0 <= i < |ps| ==> ps[i].revenue > 0.0
    ensures EarnedCents(ps) >= 0
  {
    if ps != [] { CommissionIsNotNegative(ps[..|ps| - 1]); }
  }
}
