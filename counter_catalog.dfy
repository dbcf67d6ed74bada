/**
 The performance-counter catalog of a vCenter endpoint, as both counter
 indexes read it: one record per counter, and the textual "full name"
 `group:name:rollup` under which the flat index files a counter.
 */
module CounterCatalog {

  datatype Option<T> = None | Some(value: T)

  /** One entry of the catalog: `groupInfo.key`, `nameInfo.key`, `rollupType`
      and the endpoint-specific counter id `key`. */
  datatype CounterInfo = CounterInfo(group: string, name: string, rollup: string, id: int)

  const Separator: char := ':'

  /** The full name `group:name:rollup` of a counter. */
  function FullName(group: string, name: string, rollup: string): string
  {
    group + [Separator] + name + [Separator] + rollup
  }

  function InfoFullName(info: CounterInfo): string
  {
    FullName(info.group, info.name, info.rollup)
  }

  /** The (group, name, rollup) triple that identifies a counter. */
  function Triple(info: CounterInfo): (string, string, string)
  {
    (info.group, info.name, info.rollup)
  }

  predicate ColonFree(s: string)
  {
    Separator !in s
  }

  /** A record whose three name parts can be told apart inside its full name. */
  predicate WellFormedInfo(info: CounterInfo)
  {
    ColonFree(info.group) && ColonFree(info.name) && ColonFree(info.rollup)
  }

  /** The parts joined with the separator between each two of them. */
  function Join(parts: seq<string>): string
    requires |parts| >= 1
  {
    if |parts| == 1 then parts[0] else parts[0] + [Separator] + Join(parts[1..])
  }

  /** Splitting on the separator, as Python's `str.split(":")` does: every
      separator ends one part, and the parts, joined again, give back `s`. */
  function Split(s: string): (parts: seq<string>)
    ensures |parts| >= 1
    ensures forall i :: 0 <= i < |parts| ==> ColonFree(parts[i])
    ensures Join(parts) == s
    decreases |s|
  {
    if s == [] then [""]
    else
      var rest := Split(s[1..]);
      if s[0] == Separator then
        var parts := [""] + rest;
        assert parts[1..] == rest;
        assert Join(parts) == [Separator] + s[1..] == s;
        parts
      else
        var first := [s[0]] + rest[0];
        var parts := [first] + rest[1..];
        assert parts[1..] == rest[1..];
        JoinCons(s[0], rest);
        parts
  }

  /** Prepending a character to a join prepends it to the first part. */
  lemma JoinCons(c: char, parts: seq<string>)
    requires |parts| >= 1
    ensures Join([[c] + parts[0]] + parts[1..]) == [c] + Join(parts)
  {
    var q := [[c] + parts[0]] + parts[1..];
    if |parts| > 1 {
      assert q[1..] == parts[1..];
    }
  }

  lemma {:induction false} FullNameIsJoin(group: string, name: string, rollup: string)
    ensures FullName(group, name, rollup) == Join([group, name, rollup])
  {
    assert [group, name, rollup][1..] == [name, rollup];
    assert [name, rollup][1..] == [rollup];
    assert Join([rollup]) == rollup;
    assert Join([name, rollup]) == name + [Separator] + rollup;
  }

  /** A separator-free part followed by the separator splits off as one part. */
  lemma {:induction false} SplitAfterPart(head: string, tail: string)
    requires ColonFree(head)
    ensures Split(head + [Separator] + tail) == [head] + Split(tail)
    decreases |head|
  {
    var s := head + [Separator] + tail;
    if head == [] {
      assert s == [Separator] + tail;
      assert s[1..] == tail;
    } else {
      assert s[0] == head[0];
      assert s[1..] == head[1..] + [Separator] + tail;
      SplitAfterPart(head[1..], tail);
      assert [head[0]] + head[1..] == head;
    }
  }

  lemma {:induction false} SplitColonFree(s: string)
    requires ColonFree(s)
    ensures Split(s) == [s]
    decreases |s|
  {
    if s != [] {
      SplitColonFree(s[1..]);
      assert [s[0]] + s[1..] == s;
    }
  }

  /** Split undoes Join when no part contains the separator. */
  lemma {:induction false} SplitJoin(parts: seq<string>)
    requires |parts| >= 1
    requires forall i :: 0 <= i < |parts| ==> ColonFree(parts[i])
    ensures Split(Join(parts)) == parts
    decreases |parts|
  {
    if |parts| == 1 {
      SplitColonFree(parts[0]);
    } else {
      SplitJoin(parts[1..]);
      SplitAfterPart(parts[0], Join(parts[1..]));
      assert [parts[0]] + parts[1..] == parts;
    }
  }

  /** The full-name format round-trips: splitting a full name on `:` gives
      back the group, the name and the rollup, when none of them holds `:`. */
  lemma FullNameRoundTrip(group: string, name: string, rollup: string)
    requires ColonFree(group) && ColonFree(name) && ColonFree(rollup)
    ensures Split(FullName(group, name, rollup)) == [group, name, rollup]
  {
    FullNameIsJoin(group, name, rollup);
    SplitJoin([group, name, rollup]);
  }

  /** Among well-formed records, equal full names mean equal triples. */
  lemma FullNameInjective(a: CounterInfo, b: CounterInfo)
    requires WellFormedInfo(a) && WellFormedInfo(b)
    ensures InfoFullName(a) == InfoFullName(b) <==> Triple(a) == Triple(b)
  {
    FullNameRoundTrip(a.group, a.name, a.rollup);
    FullNameRoundTrip(b.group, b.name, b.rollup);
  }

  /** Without the separator-free condition two different counters can share a
      full name: `a:b` / `c` / `d` and `a` / `b:c` / `d` both give `a:b:c:d`. */
  lemma FullNameCollision()
    ensures var x := CounterInfo("a:b", "c", "d", 1);
            var y := CounterInfo("a", "b:c", "d", 2);
            Triple(x) != Triple(y) && InfoFullName(x) == InfoFullName(y) == "a:b:c:d"
  {
  }
}
