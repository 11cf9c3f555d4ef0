/** Identity of a dispatch row, which is also the message id JetStream deduplicates on. */
module DispatchIds {
  import opened Text

  datatype Reason = Execute | Redispatch | Replay

  /** One queue reservation, and for a job sent again the reason and the row count it was numbered with. */
  datatype Id = Id(key: string, queuedAt: nat, again: Option<(Reason, nat)>)

  function ReasonText(r: Reason): string {
    match r case Execute => "execute" case Redispatch => "redispatch" case Replay => "replay"
  }

  function Tail(id: Id): string {
    Decimal(id.queuedAt) +
    if id.again.None? then "" else "#" + ReasonText(id.again.value.0) + "-" + Decimal(id.again.value.1)
  }

  /** The text sent as Nats-Msg-Id: key@nanos, or key@nanos#reason-n. */
  function Render(id: Id): string { id.key + "@" + Tail(id) }

  lemma {:induction false} DecimalInjective(m: nat, n: nat)
    requires Decimal(m) == Decimal(n)
    ensures m == n
    decreases m
  {
    var s, t := Decimal(m), Decimal(n);
    assert s[|s| - 1] == Digit(m % 10) && t[|t| - 1] == Digit(n % 10);
    assert (m >= 10 <==> |s| >= 2) && (n >= 10 <==> |t| >= 2);
    if m >= 10 {
      assert s[..|s| - 1] == Decimal(m / 10) && t[..|t| - 1] == Decimal(n / 10);
      DecimalInjective(m / 10, n / 10);
    }
  }

  /** Text splits in only one way at its last c. */
  lemma SplitLast(c: char, x: string, y: string, x': string, y': string)
    requires x + [c] + y == x' + [c] + y' && c !in y && c !in y'
    ensures x == x' && y == y'
  {
    var s := x + [c] + y;
    var s' := x' + [c] + y';
    assert s[|x|] == c && forall k :: |x| < k < |s| ==> s[k] == y[k - |x| - 1];
    assert s'[|x'|] == c && forall k :: |x'| < k < |s| ==> s'[k] == y'[k - |x'| - 1];
    assert |x| == |x'|;
    assert x == s[..|x|] && x' == s'[..|x'|];
    assert y == s[|x| + 1..] && y' == s'[|x'| + 1..];
  }

  lemma TailHasNoAt(id: Id)
    ensures '@' !in Tail(id)
    ensures '#' in Tail(id) <==> id.again.Some?
  {
    var d := Decimal(id.queuedAt);
    assert '@' !in d && '#' !in d;
    if id.again.Some? {
      var r, n := ReasonText(id.again.value.0), Decimal(id.again.value.1);
      assert '@' !in r && '@' !in n;
      assert Tail(id) == d + ("#" + r + "-" + n);
      assert Tail(id)[|d|] == '#';
    } else {
      assert Tail(id) == d;
    }
  }

  lemma AgainInjective(r: Reason, m: nat, r': Reason, n: nat)
    requires ReasonText(r) + "-" + Decimal(m) == ReasonText(r') + "-" + Decimal(n)
    ensures r == r' && m == n
  {
    SplitLast('-', ReasonText(r), Decimal(m), ReasonText(r'), Decimal(n));
    DecimalInjective(m, n);
    assert ReasonText(r)[2] == ReasonText(r')[2];
  }

  function AgainText(again: (Reason, nat)): string { ReasonText(again.0) + "-" + Decimal(again.1) }

  lemma TailSplit(id: Id)
    ensures id.again.None? ==> Tail(id) == Decimal(id.queuedAt)
    ensures id.again.Some? ==> Tail(id) == Decimal(id.queuedAt) + ['#'] + AgainText(id.again.value)
    ensures id.again.Some? ==> '#' !in AgainText(id.again.value)
  {
    if id.again.Some? {
      assert '#' !in ReasonText(id.again.value.0) && '#' !in Decimal(id.again.value.1);
    }
  }

  lemma TailInjective(a: Id, b: Id)
    requires Tail(a) == Tail(b)
    ensures a.queuedAt == b.queuedAt && a.again == b.again
  {
    TailHasNoAt(a);
    TailHasNoAt(b);
    TailSplit(a);
    TailSplit(b);
    if a.again.Some? {
      SplitLast('#', Decimal(a.queuedAt), AgainText(a.again.value), Decimal(b.queuedAt), AgainText(b.again.value));
      AgainInjective(a.again.value.0, a.again.value.1, b.again.value.0, b.again.value.1);
    }
    DecimalInjective(a.queuedAt, b.queuedAt);
  }

  /** Different dispatches never share a message id, whatever text the idempotency key holds. */
  lemma RenderInjective(a: Id, b: Id)
    ensures Render(a) == Render(b) ==> a == b
  {
    if Render(a) == Render(b) {
      TailHasNoAt(a);
      TailHasNoAt(b);
      SplitLast('@', a.key, Tail(a), b.key, Tail(b));
      TailInjective(a, b);
    }
  }
}
