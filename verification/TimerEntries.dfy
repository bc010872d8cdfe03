/** The ordered set `timers_` of TimerQueue.h: a std::set of (expiration, Timer*) pairs,
    represented by its iteration order. */
module TimerEntries {

  type Addr = nat

  // The largest uintptr_t; no timer lives there, so it closes the entries of one instant.
  const UINTPTR_MAX: nat := 0xFFFF_FFFF_FFFF_FFFF

  datatype Entry = Entry(when: int, timer: Addr)

  /** The lexicographic order of std::pair. */
  predicate Less(a: Entry, b: Entry) {
    a.when < b.when || (a.when == b.when && a.timer < b.timer)
  }

  ghost predicate Sorted(s: seq<Entry>) {
    forall i, j | 0 <= i < j < |s| :: Less(s[i], s[j])
  }

  /** std::set::lower_bound: the first position whose entry is not below `key`. */
  function LowerBound(s: seq<Entry>, key: Entry): (k: nat)
    ensures k <= |s|
    ensures forall i | 0 <= i < k :: Less(s[i], key)
    ensures k < |s| ==> !Less(s[k], key)
  {
    if |s| == 0 || !Less(s[0], key) then 0
    else
      var k := LowerBound(s[1..], key);
      assert forall i | 0 < i < k + 1 :: s[i] == s[1..][i - 1];
      k + 1
  }

  /** std::set::insert. */
  function Insert(s: seq<Entry>, e: Entry): seq<Entry> {
    var k := LowerBound(s, e);
    if k < |s| && s[k] == e then s else s[..k] + [e] + s[k..]
  }

  /** std::set::erase by key. */
  function Erase(s: seq<Entry>, e: Entry): seq<Entry> {
    var k := LowerBound(s, e);
    if k < |s| && s[k] == e then s[..k] + s[k + 1..] else s
  }

  lemma FoundAtLowerBound(s: seq<Entry>, e: Entry)
    requires Sorted(s)
    ensures e in s <==> LowerBound(s, e) < |s| && s[LowerBound(s, e)] == e
  {
    if e in s {
      var i :| 0 <= i < |s| && s[i] == e;
      assert LowerBound(s, e) <= i;
    }
  }

  lemma InsertKeepsSet(s: seq<Entry>, e: Entry)
    requires Sorted(s) && e !in s
    ensures Sorted(Insert(s, e)) && |Insert(s, e)| == |s| + 1
    ensures forall x :: x in Insert(s, e) <==> x in s || x == e
    ensures Insert(s, e)[0] == if s == [] || Less(e, s[0]) then e else s[0]
  {
    var k := LowerBound(s, e);
    FoundAtLowerBound(s, e);
    var t := s[..k] + [e] + s[k..];
    forall i | 0 <= i < |t|
      ensures t[i] == if i < k then s[i] else if i == k then e else s[i - 1]
    {}
    forall j | k <= j < |s|
      ensures Less(e, s[j])
    {
      assert j == k || Less(s[k], s[j]);
    }
    forall x
      ensures x in t <==> x in s || x == e
    {
      assert s == s[..k] + s[k..];
    }
  }

  lemma EraseKeepsSet(s: seq<Entry>, e: Entry)
    requires Sorted(s) && e in s
    ensures Sorted(Erase(s, e)) && |Erase(s, e)| == |s| - 1
    ensures forall x :: x in Erase(s, e) <==> x in s && x != e
    ensures Erase(s, e) != [] ==> s[0].when <= Erase(s, e)[0].when
  {
    var k := LowerBound(s, e);
    FoundAtLowerBound(s, e);
    var t := s[..k] + s[k + 1..];
    forall i | 0 <= i < |t|
      ensures t[i] == if i < k then s[i] else s[i + 1]
    {}
    forall x
      ensures x in t <==> x in s && x != e
    {
      assert s == s[..k] + [e] + s[k + 1..];
      assert forall i | 0 <= i < |t| :: t[i] != e;
    }
  }

  /** The entry (now, UINTPTR_MAX) splits the set into what is due at `now` and what is not. */
  lemma SplitAtNow(s: seq<Entry>, now: int)
    requires Sorted(s)
    requires forall e | e in s :: e.timer < UINTPTR_MAX
    ensures var k := LowerBound(s, Entry(now, UINTPTR_MAX));
      && (forall i | 0 <= i < k :: s[i].when <= now)
      && (forall i | k <= i < |s| :: now < s[i].when)
  {
    var k := LowerBound(s, Entry(now, UINTPTR_MAX));
    forall i | k <= i < |s|
      ensures now < s[i].when
    {
      assert s[k] in s && s[i] in s;
      assert i == k || Less(s[k], s[i]);
    }
  }

  lemma TakeDrop(s: seq<Entry>, k: nat)
    requires k <= |s|
    ensures s == s[..k] + s[k..]
  {}
}
