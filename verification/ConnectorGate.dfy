/** Sequence order and the event gate of clients/core/src/connectors.ts. */
module ConnectorGate {
  import opened Results

  // ---- decimal sequences ----

  predicate IsDigit(c: char) {
    '0' <= c <= '9'
  }

  /** An unsigned canonical decimal: digits, with no zero in front but for zero itself. */
  predicate IsSequence(t: string) {
    |t| > 0 && (forall k :: 0 <= k < |t| ==> IsDigit(t[k])) && (|t| > 1 ==> t[0] != '0')
  }

  function Worth(c: char): nat
    requires IsDigit(c)
  {
    c as int - '0' as int
  }

  /** The number that digits denote. */
  function Number(t: string): nat
    requires forall k :: 0 <= k < |t| ==> IsDigit(t[k])
  {
    if t == "" then 0 else 10 * Number(t[..|t| - 1]) + Worth(t[|t| - 1])
  }

  function Power10(n: nat): (p: nat)
    ensures p > 0
  {
    if n == 0 then 1 else 10 * Power10(n - 1)
  }

  /** The order of strings of the same length, code unit by code unit. */
  predicate Before(a: string, b: string) {
    a != "" && b != "" && (a[0] < b[0] || (a[0] == b[0] && Before(a[1..], b[1..])))
  }

  datatype GateError = NotCanonical | BadAccount | BadKey

  method CompareConnectorSequence(a: string, b: string) returns (r: Result<int, GateError>)
    ensures !(IsSequence(a) && IsSequence(b)) ==> r == Err(NotCanonical)
    ensures IsSequence(a) && IsSequence(b) ==> r == Ok(Compared(a, b))
  {
    if !IsSequence(a) || !IsSequence(b) {
      return Err(NotCanonical);
    }
    if |a| != |b| {
      return Ok(if |a| < |b| then -1 else 1);
    }
    if a == b {
      return Ok(0);
    }
    return Ok(if Before(a, b) then -1 else 1);
  }

  function Compared(a: string, b: string): int {
    if |a| != |b| then (if |a| < |b| then -1 else 1)
    else if a == b then 0
    else if Before(a, b) then -1 else 1
  }

  lemma {:induction false} LeadingDigit(t: string)
    requires t != "" && forall k :: 0 <= k < |t| ==> IsDigit(t[k])
    ensures Number(t) == Worth(t[0]) * Power10(|t| - 1) + Number(t[1..])
    decreases |t|
  {
    var n := |t| - 1;
    if n == 0 {
      assert t[..0] == "" && t[1..] == "";
    } else {
      LeadingDigit(t[..n]);
      assert t[1..][..n - 1] == t[..n][1..];
      Tenfold(Worth(t[0]), Power10(n - 1));
    }
  }

  lemma Tenfold(d: nat, p: nat)
    ensures 10 * (d * p) == d * (10 * p)
  {
  }

  lemma {:induction false} NumberBelow(t: string)
    requires forall k :: 0 <= k < |t| ==> IsDigit(t[k])
    ensures Number(t) < Power10(|t|)
    decreases |t|
  {
    if t != "" {
      NumberBelow(t[..|t| - 1]);
    }
  }

  lemma {:induction false} PowerMonotone(m: nat, n: nat)
    requires m <= n
    ensures Power10(m) <= Power10(n)
    decreases n
  {
    if m < n {
      PowerMonotone(m, n - 1);
    }
  }

  lemma AtLeastPower(t: string)
    requires IsSequence(t) && |t| > 1
    ensures Number(t) >= Power10(|t| - 1)
  {
    LeadingDigit(t);
    Times(Worth(t[0]), Power10(|t| - 1));
  }

  lemma Times(d: nat, p: nat)
    ensures d >= 1 ==> d * p >= p
  {
  }

  lemma ShorterIsSmaller(a: string, b: string)
    requires IsSequence(a) && IsSequence(b) && |a| < |b|
    ensures Number(a) < Number(b)
  {
    NumberBelow(a);
    PowerMonotone(|a|, |b| - 1);
    AtLeastPower(b);
  }

  lemma Larger(d: nat, e: nat, p: nat, x: nat, y: nat)
    requires d < e && x < p
    ensures d * p + x < e * p + y
  {
    assert (d + 1) * p <= e * p;
  }

  lemma {:induction false} BeforeIsSmaller(a: string, b: string)
    requires |a| == |b| && (forall k :: 0 <= k < |a| ==> IsDigit(a[k]) && IsDigit(b[k]))
    ensures Before(a, b) <==> Number(a) < Number(b)
    ensures Number(a) == Number(b) ==> a == b
    decreases |a|
  {
    if a != "" {
      LeadingDigit(a);
      LeadingDigit(b);
      NumberBelow(a[1..]);
      NumberBelow(b[1..]);
      BeforeIsSmaller(a[1..], b[1..]);
      var d, e, p := Worth(a[0]), Worth(b[0]), Power10(|a| - 1);
      if d < e {
        Larger(d, e, p, Number(a[1..]), Number(b[1..]));
      } else if e < d {
        Larger(e, d, p, Number(b[1..]), Number(a[1..]));
      } else {
        assert a == [a[0]] + a[1..] && b == [b[0]] + b[1..];
      }
    }
  }

  /** Comparison of canonical decimals is comparison of the numbers they denote. */
  lemma ComparesNumbers(a: string, b: string)
    requires IsSequence(a) && IsSequence(b)
    ensures Compared(a, b) == if Number(a) < Number(b) then -1 else if Number(a) == Number(b) then 0 else 1
  {
    if |a| < |b| {
      ShorterIsSmaller(a, b);
    } else if |b| < |a| {
      ShorterIsSmaller(b, a);
    } else {
      BeforeIsSmaller(a, b);
    }
  }

  // ---- the gate ----

  datatype Verdict = Apply | Duplicate | Stale

  /** `seen` lists the remembered keys, oldest first, as the insertion order of the map does. */
  datatype Gate = Gate(last: Option<string>, seen: seq<string>)

  datatype Event = Event(sequence: string, provider: string, account: string, key: string)

  /** The length in UTF-16 code units. */
  function Units(t: string): nat {
    if t == "" then 0 else Units(t[..|t| - 1]) + (if t[|t| - 1] as int > 0xFFFF then 2 else 1)
  }

  /** Not empty, not too long, and without control characters. */
  predicate IsOpaque(t: string, most: nat) {
    t != "" && Units(t) <= most && forall k :: 0 <= k < |t| ==> t[k] as int > 31 && t[k] as int != 127
  }

  predicate IsProvider(t: string) {
    2 <= |t| <= 64 && 'a' <= t[0] <= 'z' &&
    forall k :: 1 <= k < |t| ==> 'a' <= t[k] <= 'z' || IsDigit(t[k]) || t[k] in "_.-"
  }

  function Trimmed(seen: seq<string>, max: nat): seq<string> {
    if |seen| <= max then seen else seen[|seen| - max..]
  }

  function Judged(g: Gate, e: Event): Result<Verdict, GateError> {
    if !IsSequence(e.sequence) then Err(NotCanonical)
    else if !IsProvider(e.provider) || !IsOpaque(e.account, 512) then Err(BadAccount)
    else if !IsOpaque(e.key, 1024) then Err(BadKey)
    else if g.last.Some? && Compared(e.sequence, g.last.value) <= 0 then Ok(Stale)
    else if e.key in g.seen then Ok(Duplicate)
    else Ok(Apply)
  }

  /** A refused event changes nothing. */
  function Accepted(g: Gate, e: Event, max: nat): Gate {
    var verdict := Judged(g, e);
    if verdict.Err? || verdict.value.Stale? then g
    else if verdict.value.Duplicate? then g.(last := Some(e.sequence))
    else Gate(Some(e.sequence), Trimmed(g.seen + [e.key], max))
  }

  class EventGate {
    const max: nat
    var last: Option<string>
    var seen: seq<string>

    constructor (entries: nat)
      requires entries >= 1
      ensures max == entries && Model() == Gate(None, [])
    {
      max, last, seen := entries, None, [];
    }

    function Model(): Gate
      reads this
    {
      Gate(last, seen)
    }

    predicate Valid()
      reads this
    {
      last.Some? ==> IsSequence(last.value)
    }

    method Accept(e: Event) returns (r: Result<Verdict, GateError>)
      requires Valid()
      modifies this
      ensures Valid()
      ensures r == Judged(old(Model()), e) && Model() == Accepted(old(Model()), e, max)
    {
      if !IsSequence(e.sequence) {
        return Err(NotCanonical);
      }
      if !IsProvider(e.provider) || !IsOpaque(e.account, 512) {
        return Err(BadAccount);
      }
      if !IsOpaque(e.key, 1024) {
        return Err(BadKey);
      }
      if last.Some? {
        var c := CompareConnectorSequence(e.sequence, last.value);
        if c.value <= 0 {
          return Ok(Stale);
        }
      }
      last := Some(e.sequence);
      if e.key in seen {
        return Ok(Duplicate);
      }
      seen := seen + [e.key];
      ghost var all := seen;
      while |seen| > max
        invariant last == Some(e.sequence)
        invariant |seen| <= |all| && seen == all[|all| - |seen|..]
        invariant |all| > max ==> |seen| >= max
        invariant |all| <= max ==> seen == all
      {
        seen := seen[1..];
      }
      return Ok(Apply);
    }

    method Reset()
      modifies this
      ensures Model() == Gate(None, [])
    {
      last, seen := None, [];
    }
  }

  // ---- every run ----

  function Run(g: Gate, events: seq<Event>, max: nat): Gate
    decreases |events|
  {
    if events == [] then g else Accepted(Run(g, events[..|events| - 1], max), events[|events| - 1], max)
  }

  /** The events that were applied, in order. */
  function Applied(g: Gate, events: seq<Event>, max: nat): seq<Event>
    decreases |events|
  {
    if events == [] then []
    else
      var n := |events| - 1;
      var before := Run(g, events[..n], max);
      Applied(g, events[..n], max) + (if Judged(before, events[n]) == Ok(Apply) then [events[n]] else [])
  }

  function Keys(events: seq<Event>): (keys: seq<string>)
    ensures |keys| == |events| && forall k :: 0 <= k < |events| ==> keys[k] == events[k].key
  {
    seq(|events|, k requires 0 <= k < |events| => events[k].key)
  }

  predicate AllSequences(events: seq<Event>) {
    forall k :: 0 <= k < |events| ==> IsSequence(events[k].sequence)
  }

  const EMPTY: Gate := Gate(None, [])

  /** What is remembered is exactly the keys of the last applied events, at most `max`, in order. */
  lemma {:induction false} SeenIsRecent(events: seq<Event>, max: nat)
    requires max >= 1
    ensures Run(EMPTY, events, max).seen == Trimmed(Keys(Applied(EMPTY, events, max)), max)
    decreases |events|
  {
    if events == [] {
      assert Keys([]) == [];
    } else {
      var n := |events| - 1;
      SeenIsRecent(events[..n], max);
      var before, g := Applied(EMPTY, events[..n], max), Run(EMPTY, events[..n], max);
      hide Judged;
      if Judged(g, events[n]) == Ok(Apply) {
        KeysAppend(before, events[n]);
        hide Trimmed;
        hide Keys;
        TrimTwice(Keys(before), events[n].key, max);
      } else {
        assert before + [] == before;
        hide Keys;
        hide Trimmed;
      }
    }
  }

  lemma KeysAppend(events: seq<Event>, e: Event)
    ensures Keys(events + [e]) == Keys(events) + [e.key]
  {
  }

  lemma TrimTwice(keys: seq<string>, key: string, max: nat)
    requires max >= 1
    ensures Trimmed(Trimmed(keys, max) + [key], max) == Trimmed(keys + [key], max)
  {
  }

  lemma {:induction false} AppliedIncrease(events: seq<Event>, max: nat)
    ensures var a, g := Applied(EMPTY, events, max), Run(EMPTY, events, max);
            && AllSequences(a) && (g.last.Some? ==> IsSequence(g.last.value))
            && (a != [] ==> g.last.Some?)
            && (forall k :: 0 <= k < |a| ==> Number(a[k].sequence) <= Number(g.last.value))
            && (forall i, j :: 0 <= i < j < |a| ==> Number(a[i].sequence) < Number(a[j].sequence))
    decreases |events|
  {
    if events != [] {
      var n := |events| - 1;
      AppliedIncrease(events[..n], max);
      var g := Run(EMPTY, events[..n], max);
      if g.last.Some? && IsSequence(events[n].sequence) {
        ComparesNumbers(events[n].sequence, g.last.value);
      }
      hide Number;
      hide Compared;
      hide IsOpaque;
      hide IsProvider;
    }
  }

  lemma {:induction false} RepeatsAreFar(events: seq<Event>, max: nat, i: nat, j: nat)
    requires max >= 1 && i < j < |Applied(EMPTY, events, max)|
    requires Applied(EMPTY, events, max)[i].key == Applied(EMPTY, events, max)[j].key
    ensures j - i - 1 >= max
    decreases |events|
  {
    var n := |events| - 1;
    var before, g := Applied(EMPTY, events[..n], max), Run(EMPTY, events[..n], max);
    if j < |before| {
      RepeatsAreFar(events[..n], max, i, j);
    } else {
      SeenIsRecent(events[..n], max);
      var keys := Keys(before);
      assert keys[i] == events[n].key && events[n].key !in Trimmed(keys, max);
      if i >= |keys| - max {
        NotTrimmed(keys, max, i);
      }
    }
  }

  lemma NotTrimmed(keys: seq<string>, max: nat, i: nat)
    requires i < |keys| && i >= |keys| - max
    ensures keys[i] in Trimmed(keys, max)
  {
    if |keys| > max {
      assert Trimmed(keys, max)[i - (|keys| - max)] == keys[i];
    }
  }

  /** In every run from a fresh gate the applied events have strictly increasing sequence numbers, and a key is
      applied again only after at least `max` other applications. */
  lemma GateIsOrdered(events: seq<Event>, max: nat, i: nat, j: nat)
    requires max >= 1 && i < j < |Applied(EMPTY, events, max)|
    ensures var a := Applied(EMPTY, events, max);
            && IsSequence(a[i].sequence) && IsSequence(a[j].sequence)
            && Number(a[i].sequence) < Number(a[j].sequence)
            && (a[i].key == a[j].key ==> j - i - 1 >= max)
  {
    AppliedIncrease(events, max);
    hide Applied;
    if Applied(EMPTY, events, max)[i].key == Applied(EMPTY, events, max)[j].key {
      RepeatsAreFar(events, max, i, j);
    }
  }
}
