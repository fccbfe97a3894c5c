/**
 The text of outbox_events.event_id.  Two events never share it, so the unique key
 on the column is a unique key on events.
 */
module EventNames {
  import opened Domain

  function Digit(d: nat): char
    requires d < 10
  {
    "0123456789"[d]
  }

  /** %d of a natural number. */
  function Digits(n: nat): (text: string)
    ensures text != [] && forall c :: c in text ==> c != '-'
  {
    if n < 10 then [Digit(n)] else Digits(n / 10) + [Digit(n % 10)]
  }

  /** %d of an integer. */
  function Decimal(x: int): string { if x < 0 then "-" + Digits(-x) else Digits(x) }

  function Name(id: EventId): string {
    match id
    case Ready(e) => "execution-ready-" + Digits(e)
    case Retry(e, attempt) => "execution-retry-" + Digits(e) + "-" + Digits(attempt)
    case Recovery(e, at) => "execution-recovery-" + Digits(e) + "-" + Decimal(at)
  }

  /** The number a text of digits stands for. */
  function Number(text: string): nat
    requires forall i :: 0 <= i < |text| ==> '0' <= text[i] <= '9'
  {
    if text == [] then 0 else 10 * Number(text[..|text| - 1]) + (text[|text| - 1] as int - '0' as int)
  }

  /** Digits are decimal: they stand for the number, and start with 0 only for 0 itself. */
  lemma {:induction false} DigitsStandFor(n: nat)
    ensures forall i :: 0 <= i < |Digits(n)| ==> '0' <= Digits(n)[i] <= '9'
    ensures Number(Digits(n)) == n && (Digits(n)[0] == '0' <==> n == 0)
    decreases n
  {
    if n >= 10 {
      DigitsStandFor(n / 10);
      assert Digits(n)[..|Digits(n)| - 1] == Digits(n / 10);
    }
  }

  /** The formats by example: the first point of an execution, a retry after attempt 2, a recovery before the epoch. */
  lemma FormatsByExample()
    ensures Name(Ready(120)) == "execution-ready-120"
    ensures Name(Retry(7, 2)) == "execution-retry-7-2"
    ensures Name(Recovery(45, -30)) == "execution-recovery-45--30"
  {
    assert Digits(120) == "120" && Digits(45) == "45" && Digits(30) == "30";
  }

  lemma DigitsDiffer(c: nat, d: nat)
    requires c < 10 && d < 10 && Digit(c) == Digit(d)
    ensures c == d
  {
  }

  lemma {:induction false} DigitsAreInjective(m: nat, n: nat)
    requires Digits(m) == Digits(n)
    ensures m == n
    decreases m
  {
    var a, b := Digits(m), Digits(n);
    assert a[|a| - 1] == b[|b| - 1];
    DigitsDiffer(m % 10, n % 10);
    if m >= 10 && n >= 10 {
      assert Digits(m / 10) == a[..|a| - 1] && Digits(n / 10) == b[..|b| - 1];
      DigitsAreInjective(m / 10, n / 10);
    }
  }

  lemma SignShows(x: int)
    ensures Decimal(x) != [] && (Decimal(x)[0] == '-' <==> x < 0)
  {
    if x >= 0 { assert Digits(x)[0] in Digits(x); }
  }

  lemma DecimalsAreInjective(x: int, y: int)
    requires Decimal(x) == Decimal(y)
    ensures x == y
  {
    hide Digits;
    SignShows(x);
    SignShows(y);
    if x >= 0 && y >= 0 {
      DigitsAreInjective(x, y);
    } else if x < 0 && y < 0 {
      assert Digits(-x) == Decimal(x)[1..] && Digits(-y) == Decimal(y)[1..];
      DigitsAreInjective(-x, -y);
    }
  }

  /** The first dash after the execution number separates it from what follows. */
  lemma DashSeparates(a: string, u: string, b: string, v: string)
    requires '-' !in a && '-' !in b && a + "-" + u == b + "-" + v
    ensures a == b && u == v
  {
    var s, t := a + "-" + u, b + "-" + v;
    assert s[|a|] == '-' && t[|b|] == '-';
    assert a == s[..|a|] && b == t[..|b|] && u == s[|a| + 1..] && v == t[|b| + 1..];
  }

  lemma SamePrefix(prefix: string, a: string, b: string)
    requires prefix + a == prefix + b
    ensures a == b
  {
    assert a == (prefix + a)[|prefix|..] && b == (prefix + b)[|prefix|..];
  }

  /** The character in which the three formats differ. */
  lemma KindShows(id: EventId)
    ensures |Name(id)| > 12
    ensures Name(id)[12] == match id { case Ready(_) => 'a' case Retry(_, _) => 't' case Recovery(_, _) => 'c' }
  {
  }

  lemma RetryNames(e: nat, x: nat, f: nat, y: nat)
    requires Name(Retry(e, x)) == Name(Retry(f, y))
    ensures e == f && x == y
  {
    hide Digits;
    assert Name(Retry(e, x)) == "execution-retry-" + (Digits(e) + "-" + Digits(x));
    assert Name(Retry(f, y)) == "execution-retry-" + (Digits(f) + "-" + Digits(y));
    SamePrefix("execution-retry-", Digits(e) + "-" + Digits(x), Digits(f) + "-" + Digits(y));
    DashSeparates(Digits(e), Digits(x), Digits(f), Digits(y));
    DigitsAreInjective(e, f);
    DigitsAreInjective(x, y);
  }

  lemma RecoveryNames(e: nat, x: int, f: nat, y: int)
    requires Name(Recovery(e, x)) == Name(Recovery(f, y))
    ensures e == f && x == y
  {
    hide Digits, Decimal;
    assert Name(Recovery(e, x)) == "execution-recovery-" + (Digits(e) + "-" + Decimal(x));
    assert Name(Recovery(f, y)) == "execution-recovery-" + (Digits(f) + "-" + Decimal(y));
    SamePrefix("execution-recovery-", Digits(e) + "-" + Decimal(x), Digits(f) + "-" + Decimal(y));
    DashSeparates(Digits(e), Decimal(x), Digits(f), Decimal(y));
    DigitsAreInjective(e, f);
    DecimalsAreInjective(x, y);
  }

  lemma ReadyNames(e: nat, f: nat)
    requires Name(Ready(e)) == Name(Ready(f))
    ensures e == f
  {
    hide Digits;
    SamePrefix("execution-ready-", Digits(e), Digits(f));
    DigitsAreInjective(e, f);
  }

  /** Equal text, equal event: whatever the kinds, executions, attempts and instants. */
  lemma NamesAreUnique(a: EventId, b: EventId)
    ensures Name(a) == Name(b) <==> a == b
  {
    hide *;
    if Name(a) == Name(b) {
      KindShows(a);
      KindShows(b);
      if a.Ready? && b.Ready? { ReadyNames(a.execution, b.execution); }
      if a.Retry? && b.Retry? { RetryNames(a.execution, a.attempt, b.execution, b.attempt); }
      if a.Recovery? && b.Recovery? { RecoveryNames(a.execution, a.at, b.execution, b.at); }
    }
  }
}
