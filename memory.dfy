/** The agent's two-tier memory: a bounded short-term list with first-in-first-out
    eviction, and an unbounded long-term list that receives an evicted entry only
    when its importance is at least 5. Both lists keep their entries oldest first. */
module MemoryBase {
  import opened Common

  /** One remembered item. Its creation timestamp is not modelled. */
  datatype MemoryEntry = MemoryEntry(
    content: string,
    importance: int,
    tags: seq<string>,
    metadata: map<string, Value>)

  /** Evicted entries at least this important move to long-term memory */
  const PromotionThreshold := 5

  /** The entry the add operations build: absent (or empty) tags and metadata become empty */
  function NewEntry(content: string, importance: int, tags: Option<seq<string>>,
                    metadata: Option<map<string, Value>>): MemoryEntry
  {
    MemoryEntry(content, importance,
                if tags.Some? then tags.value else [],
                if metadata.Some? then metadata.value else map[])
  }

  /** The two lists of a memory store, as values */
  datatype Stores = Stores(shortTerm: seq<MemoryEntry>, longTerm: seq<MemoryEntry>)

  /** The size short-term memory never exceeds: a negative capacity acts as 0 */
  function Bound(maxShortTerm: int): nat {
    if maxShortTerm < 0 then 0 else maxShortTerm
  }

  /** The entries of `es` that eviction keeps, in order */
  function Promotable(es: seq<MemoryEntry>): (r: seq<MemoryEntry>)
    ensures forall x :: x in r <==> x in es && x.importance >= PromotionThreshold
  {
    if es == [] then []
    else
      var last := es[|es| - 1];
      Promotable(es[..|es| - 1]) + (if last.importance >= PromotionThreshold then [last] else [])
  }

  /** Adding `e` to short-term memory: append, and on overflow evict the head,
      promoting it when it is important enough. */
  function Push(s: Stores, maxShortTerm: int, e: MemoryEntry): Stores {
    var pushed := s.shortTerm + [e];
    if |pushed| > maxShortTerm then
      var oldest := pushed[0];
      Stores(pushed[1..], s.longTerm + (if oldest.importance >= PromotionThreshold then [oldest] else []))
    else
      Stores(pushed, s.longTerm)
  }

  /** An addition never takes short-term memory over its capacity. */
  lemma PushKeepsBound(s: Stores, maxShortTerm: int, e: MemoryEntry)
    requires |s.shortTerm| <= Bound(maxShortTerm)
    ensures |Push(s, maxShortTerm, e).shortTerm| <= Bound(maxShortTerm)
  {
  }

  /** An addition appends `e`; at most one entry leaves short-term memory, the oldest
      one, and only on overflow; long-term memory gains it exactly when it is important. */
  lemma PushEvictsOldest(s: Stores, maxShortTerm: int, e: MemoryEntry)
    ensures var r := Push(s, maxShortTerm, e);
            |r.shortTerm| == if |s.shortTerm| + 1 > maxShortTerm then |s.shortTerm| else |s.shortTerm| + 1
    ensures var r := Push(s, maxShortTerm, e);
            var pushed := s.shortTerm + [e];
            var gone := pushed[..|pushed| - |r.shortTerm|];
            pushed == gone + r.shortTerm && r.longTerm == s.longTerm + Promotable(gone)
  {
    var pushed := s.shortTerm + [e];
    if |pushed| > maxShortTerm {
      var oldest := pushed[0];
      assert Promotable([oldest]) == Promotable([]) + (if oldest.importance >= PromotionThreshold then [oldest] else []);
      assert pushed == [oldest] + pushed[1..];
    } else {
      assert pushed[..0] == [];
    }
  }

  /** A run of add_to_short_term calls, oldest first */
  function PushAll(s: Stores, maxShortTerm: int, es: seq<MemoryEntry>): Stores
    decreases |es|
  {
    if es == [] then s
    else Push(PushAll(s, maxShortTerm, es[..|es| - 1]), maxShortTerm, es[|es| - 1])
  }

  /** The last `n` entries of `es` (all of them when there are fewer) */
  function Window(es: seq<MemoryEntry>, n: nat): seq<MemoryEntry> {
    if |es| <= n then es else es[|es| - n..]
  }

  /** The entries in front of the window */
  function Overflow(es: seq<MemoryEntry>, n: nat): seq<MemoryEntry> {
    if |es| <= n then [] else es[..|es| - n]
  }

  /** Promotable distributes over concatenation. */
  lemma {:induction false} PromotableAppend(a: seq<MemoryEntry>, b: seq<MemoryEntry>)
    ensures Promotable(a + b) == Promotable(a) + Promotable(b)
    decreases |b|
  {
    if b == [] {
      assert a + b == a;
    } else {
      var b' := b[..|b| - 1];
      assert (a + b)[..|a + b| - 1] == a + b';
      PromotableAppend(a, b');
    }
  }

  /** One addition moves the window of the newest entries by one place. */
  lemma PushShiftsWindow(w: seq<MemoryEntry>, longTerm: seq<MemoryEntry>, n: nat, e: MemoryEntry)
    ensures Push(Stores(Window(w, n), longTerm + Promotable(Overflow(w, n))), n, e)
            == Stores(Window(w + [e], n), longTerm + Promotable(Overflow(w + [e], n)))
  {
    var pushed := Window(w, n) + [e];
    if |pushed| > n {
      assert |Window(w, n)| == n;
      assert Window(w + [e], n) == pushed[1..];
      assert Overflow(w + [e], n) == Overflow(w, n) + [pushed[0]];
      PromotableAppend(Overflow(w, n), [pushed[0]]);
      assert Promotable([pushed[0]]) == Promotable([]) + (if pushed[0].importance >= PromotionThreshold then [pushed[0]] else []);
    } else {
      assert Window(w, n) == w;
      assert Window(w + [e], n) == pushed;
      assert Overflow(w + [e], n) == Overflow(w, n);
    }
  }

  /** After any run of additions to a store within its capacity, short-term memory
      holds exactly the newest `capacity` entries, and long-term memory gained
      exactly the important ones among the entries pushed out, in order. */
  lemma {:induction false} PushAllKeepsNewest(s: Stores, maxShortTerm: int, es: seq<MemoryEntry>)
    requires 0 <= maxShortTerm && |s.shortTerm| <= maxShortTerm
    ensures PushAll(s, maxShortTerm, es)
            == Stores(Window(s.shortTerm + es, maxShortTerm),
                      s.longTerm + Promotable(Overflow(s.shortTerm + es, maxShortTerm)))
    decreases |es|
  {
    if es == [] {
      assert s.shortTerm + es == s.shortTerm;
      assert Overflow(s.shortTerm, maxShortTerm) == [];
      assert Promotable([]) == [];
    } else {
      var es' := es[..|es| - 1];
      var e := es[|es| - 1];
      assert es == es' + [e];
      var w := s.shortTerm + es';
      assert s.shortTerm + es == w + [e];
      assert PushAll(s, maxShortTerm, es) == Push(PushAll(s, maxShortTerm, es'), maxShortTerm, e);
      PushAllKeepsNewest(s, maxShortTerm, es');
      PushShiftsWindow(w, s.longTerm, maxShortTerm, e);
    }
  }

  /** What a search selects */
  datatype Criterion =
    | ContentContains(query: string)  // case-insensitive substring of the content
    | HasTag(tag: string)             // exact membership in the tags

  predicate Satisfies(e: MemoryEntry, c: Criterion) {
    match c
    case ContentContains(q) => Contains(Lower(e.content), Lower(q))
    case HasTag(t) => t in e.tags
  }

  /** The entries of `es` that satisfy `c`, in their order in `es` */
  function Select(es: seq<MemoryEntry>, c: Criterion): seq<MemoryEntry> {
    if es == [] then []
    else
      var last := es[|es| - 1];
      Select(es[..|es| - 1], c) + (if Satisfies(last, c) then [last] else [])
  }

  /** A search's answer: short-term matches, then long-term matches when asked for */
  function Lookup(s: Stores, c: Criterion, searchLongTerm: bool): seq<MemoryEntry> {
    Select(s.shortTerm, c) + (if searchLongTerm then Select(s.longTerm, c) else [])
  }

  /** Select keeps exactly the matching entries. */
  lemma {:induction false} SelectMembers(es: seq<MemoryEntry>, c: Criterion)
    ensures |Select(es, c)| <= |es|
    ensures forall x :: x in Select(es, c) <==> x in es && Satisfies(x, c)
    decreases |es|
  {
    if es != [] {
      var es' := es[..|es| - 1];
      SelectMembers(es', c);
      assert es == es' + [es[|es| - 1]];
    }
  }

  /** Select preserves order: it distributes over concatenation. */
  lemma {:induction false} SelectAppend(a: seq<MemoryEntry>, b: seq<MemoryEntry>, c: Criterion)
    ensures Select(a + b, c) == Select(a, c) + Select(b, c)
    decreases |b|
  {
    if b == [] {
      assert a + b == a;
    } else {
      var b' := b[..|b| - 1];
      assert (a + b)[..|a + b| - 1] == a + b';
      SelectAppend(a, b', c);
    }
  }

  /** A search returns exactly the matching entries of the stores it was asked to scan. */
  lemma LookupMembers(s: Stores, c: Criterion, searchLongTerm: bool)
    ensures forall x :: x in Lookup(s, c, searchLongTerm) <==>
      (x in s.shortTerm || (searchLongTerm && x in s.longTerm)) && Satisfies(x, c)
  {
    SelectMembers(s.shortTerm, c);
    SelectMembers(s.longTerm, c);
  }

  /** The empty query is a substring of every content, so it returns everything. */
  lemma {:induction false} EmptyQuerySelectsAll(es: seq<MemoryEntry>)
    ensures Select(es, ContentContains("")) == es
    decreases |es|
  {
    if es != [] {
      var es' := es[..|es| - 1];
      EmptyQuerySelectsAll(es');
      assert Lower("") == "";
      EmptyIsContained(Lower(es[|es| - 1].content));
      assert es == es' + [es[|es| - 1]];
    }
  }

  /** The memory store; `shortTerm` and `longTerm` are changed in place. */
  class Memory {
    var shortTerm: seq<MemoryEntry>
    var longTerm: seq<MemoryEntry>
    const maxShortTerm: int

    /** Short-term memory never holds more than its capacity */
    ghost predicate Valid()
      reads this`shortTerm
    {
      |shortTerm| <= Bound(maxShortTerm)
    }

    function State(): Stores
      reads this
    {
      Stores(shortTerm, longTerm)
    }

    constructor (maxShortTerm: int)
      ensures Valid() && this.maxShortTerm == maxShortTerm
      ensures shortTerm == [] && longTerm == []
    {
      this.maxShortTerm := maxShortTerm;
      shortTerm, longTerm := [], [];
    }

    method AddToShortTerm(content: string, importance: int, tags: Option<seq<string>>,
                          metadata: Option<map<string, Value>>)
      requires Valid()
      modifies this`shortTerm, this`longTerm
      ensures Valid()
      ensures State() == Push(old(State()), maxShortTerm, NewEntry(content, importance, tags, metadata))
    {
      PushKeepsBound(State(), maxShortTerm, NewEntry(content, importance, tags, metadata));
      var entry := NewEntry(content, importance, tags, metadata);
      shortTerm := shortTerm + [entry];
      if |shortTerm| > maxShortTerm {
        var oldest := shortTerm[0];
        shortTerm := shortTerm[1..];
        if oldest.importance >= PromotionThreshold {
          longTerm := longTerm + [oldest];
        }
      }
    }

    method AddToLongTerm(content: string, importance: int, tags: Option<seq<string>>,
                         metadata: Option<map<string, Value>>)
      requires Valid()
      modifies this`longTerm
      ensures Valid()
      ensures longTerm == old(longTerm) + [NewEntry(content, importance, tags, metadata)]
      ensures shortTerm == old(shortTerm)
    {
      longTerm := longTerm + [NewEntry(content, importance, tags, metadata)];
    }

    /** Case-insensitive substring search over short-term, then (optionally) long-term memory */
    method Search(query: string, searchLongTerm: bool) returns (results: seq<MemoryEntry>)
      ensures results == Lookup(State(), ContentContains(query), searchLongTerm)
    {
      var c := ContentContains(query);
      results := [];
      for i := 0 to |shortTerm|
        invariant results == Select(shortTerm[..i], c)
      {
        assert shortTerm[..i + 1][..i] == shortTerm[..i];
        if Contains(Lower(shortTerm[i].content), Lower(query)) {
          results := results + [shortTerm[i]];
        }
      }
      assert shortTerm[..|shortTerm|] == shortTerm;
      if searchLongTerm {
        var fromShort := results;
        for j := 0 to |longTerm|
          invariant results == fromShort + Select(longTerm[..j], c)
        {
          assert longTerm[..j + 1][..j] == longTerm[..j];
          if Contains(Lower(longTerm[j].content), Lower(query)) {
            results := results + [longTerm[j]];
          }
        }
        assert longTerm[..|longTerm|] == longTerm;
      }
    }

    /** Exact tag search over short-term, then (optionally) long-term memory */
    method SearchByTag(tag: string, searchLongTerm: bool) returns (results: seq<MemoryEntry>)
      ensures results == Lookup(State(), HasTag(tag), searchLongTerm)
    {
      var c := HasTag(tag);
      results := [];
      for i := 0 to |shortTerm|
        invariant results == Select(shortTerm[..i], c)
      {
        assert shortTerm[..i + 1][..i] == shortTerm[..i];
        if tag in shortTerm[i].tags {
          results := results + [shortTerm[i]];
        }
      }
      assert shortTerm[..|shortTerm|] == shortTerm;
      if searchLongTerm {
        var fromShort := results;
        for j := 0 to |longTerm|
          invariant results == fromShort + Select(longTerm[..j], c)
        {
          assert longTerm[..j + 1][..j] == longTerm[..j];
          if tag in longTerm[j].tags {
            results := results + [longTerm[j]];
          }
        }
        assert longTerm[..|longTerm|] == longTerm;
      }
    }

    method ClearShortTerm()
      requires Valid()
      modifies this`shortTerm
      ensures Valid() && shortTerm == [] && longTerm == old(longTerm)
    {
      shortTerm := [];
    }

    method ClearLongTerm()
      requires Valid()
      modifies this`longTerm
      ensures Valid() && longTerm == [] && shortTerm == old(shortTerm)
    {
      longTerm := [];
    }

    method ClearAll()
      requires Valid()
      modifies this`shortTerm, this`longTerm
      ensures Valid() && shortTerm == [] && longTerm == []
    {
      ClearShortTerm();
      ClearLongTerm();
    }
  }
}
