/** Idempotency keys.  The unique constraints on the outbox and the follow-up queue only
  * deduplicate what they should if different origins get different strings. */
module Keys {
  function Digit(d: nat): char
    requires d < 10
  {
    ('0' as int + d) as char
  }

  /** Decimal rendering of a counter, as str(n) gives it. */
  function Decimal(n: nat): string {
    if n < 10 then [Digit(n)] else Decimal(n / 10) + [Digit(n % 10)]
  }

  /** f"{key}:attempt:{n}" */
  function AttemptKey(key: string, n: nat): string {
    key + ":attempt:" + Decimal(n)
  }

  /** f"{run_id}:{call_id}" */
  function ToolKey(run: string, call: string): string {
    run + ":" + call
  }

  /** f"response:{run_id}" */
  function ResponseKey(run: string): string {
    "response:" + run
  }

  lemma {:induction false} DecimalHasNoColon(n: nat)
    ensures ':' !in Decimal(n) && |Decimal(n)| > 0
  {
    if n >= 10 {
      DecimalHasNoColon(n / 10);
    }
  }

  /** The number that a string of digits stands for. */
  ghost function Value(s: string): int {
    if |s| == 0 then 0 else 10 * Value(s[..|s| - 1]) + (s[|s| - 1] as int - '0' as int)
  }

  /** The rendering consists of digits, stands for the counter, and has no leading zero. */
  lemma {:induction false} DecimalExactly(n: nat)
    ensures var d := Decimal(n);
            && |d| > 0 && (forall i :: 0 <= i < |d| ==> '0' <= d[i] <= '9') && Value(d) == n
            && (n > 0 ==> d[0] != '0')
  {
    var d := Decimal(n);
    assert [Digit(n % 10)][..0] == "" && Value("") == 0;
    if n >= 10 {
      DecimalExactly(n / 10);
      assert d[..|d| - 1] == Decimal(n / 10);
    }
  }

  lemma {:induction false} DecimalInjective(a: nat, b: nat)
    ensures Decimal(a) == Decimal(b) ==> a == b
  {
    DecimalHasNoColon(a / 10);
    DecimalHasNoColon(b / 10);
    if a >= 10 && b >= 10 && Decimal(a) == Decimal(b) {
      var x, y := Decimal(a / 10), Decimal(b / 10);
      assert Decimal(a)[..|Decimal(a)| - 1] == x && Decimal(b)[..|Decimal(b)| - 1] == y;
      assert Decimal(a)[|Decimal(a)| - 1] == Digit(a % 10) && Decimal(b)[|Decimal(b)| - 1] == Digit(b % 10);
      DecimalInjective(a / 10, b / 10);
    }
  }

  /** A string splits in one way only at its last colon. */
  lemma LastColonSplits(x: string, d: string, y: string, e: string)
    requires |x| > 0 && x[|x| - 1] == ':' && ':' !in d
    requires |y| > 0 && y[|y| - 1] == ':' && ':' !in e
    requires x + d == y + e
    ensures x == y && d == e
  {
    var s := x + d;
    assert s[|x| - 1] == ':' && (y + e)[|y| - 1] == ':';
    assert forall i :: |x| <= i < |s| ==> s[i] == d[i - |x|];
    assert forall i :: |y| <= i < |s| ==> (y + e)[i] == e[i - |y|];
    assert x == s[..|x|] && y == s[..|y|];
    assert d == s[|x|..] && e == s[|y|..];
  }

  /** And in one way only at its first. */
  lemma FirstColonSplits(x: string, d: string, y: string, e: string)
    requires ':' !in x && ':' !in y
    requires x + ":" + d == y + ":" + e
    ensures x == y && d == e
  {
    var s := x + ":" + d;
    assert s[|x|] == ':' && (y + ":" + e)[|y|] == ':';
    assert forall i :: 0 <= i < |x| ==> s[i] == x[i];
    assert forall i :: 0 <= i < |y| ==> (y + ":" + e)[i] == y[i];
    assert x == s[..|x|] && y == s[..|y|];
    assert d == s[|x| + 1..] && e == s[|y| + 1..];
  }

  /** (key, n) -> key:attempt:n is injective, for all keys and counters. */
  lemma AttemptKeyInjective(k: string, m: nat, l: string, n: nat)
    ensures AttemptKey(k, m) == AttemptKey(l, n) <==> k == l && m == n
  {
    if AttemptKey(k, m) == AttemptKey(l, n) {
      DecimalHasNoColon(m);
      DecimalHasNoColon(n);
      var x, y := k + ":attempt:", l + ":attempt:";
      LastColonSplits(x, Decimal(m), y, Decimal(n));
      assert k == x[..|x| - 9] && l == y[..|y| - 9];
      DecimalInjective(m, n);
    }
  }

  /** Run ids hold no colon (they are uuids), so tool keys of any runs differ unless run
    * and call do, and none is the response key of a run. */
  lemma ToolKeyInjective(r: string, c: string, q: string, d: string)
    requires ':' !in r && ':' !in q
    ensures ToolKey(r, c) == ToolKey(q, d) <==> r == q && c == d
  {
    if ToolKey(r, c) == ToolKey(q, d) {
      FirstColonSplits(r, c, q, d);
    }
  }

  lemma ToolKeyIsNoResponseKey(r: string, c: string, q: string)
    requires ':' !in r
    ensures ToolKey(r, c) == ResponseKey(q) <==> r == "response" && c == q
  {
    assert ResponseKey(q) == "response" + ":" + q;
    if ToolKey(r, c) == ResponseKey(q) {
      FirstColonSplits(r, c, "response", q);
    }
  }
}
