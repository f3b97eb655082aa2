/** The namespaces the operator watches: parsing the flag, resolving the set, noticing a change. */
module Scope {
  import opened Base

  // ---- Parse ----

  /** unicode.IsSpace, which strings.TrimSpace strips. */
  predicate IsSpace(c: char) {
    c in {'\t', '\n', '\U{0B}', '\U{0C}', '\r', ' ', '\U{85}', '\U{A0}', '\U{1680}', '\U{2028}', '\U{2029}',
          '\U{202F}', '\U{205F}', '\U{3000}'} || '\U{2000}' <= c <= '\U{200A}'
  }

  function TrimLeft(s: string): string {
    if s != [] && IsSpace(s[0]) then TrimLeft(s[1..]) else s
  }

  function TrimRight(s: string): string {
    if s != [] && IsSpace(s[|s| - 1]) then TrimRight(s[..|s| - 1]) else s
  }

  function TrimSpace(s: string): string {
    TrimRight(TrimLeft(s))
  }

  /** The position of the first comma, or the length. */
  function CommaAt(s: string): (i: nat)
    ensures i <= |s| && ',' !in s[..i] && (i < |s| ==> s[i] == ',')
  {
    if s == [] || s[0] == ',' then 0
    else
      var i := 1 + CommaAt(s[1..]);
      assert s[..i] == [s[0]] + s[1..][..i - 1];
      i
  }

  /** strings.Split on commas: always at least one piece. */
  function Split(s: string): (pieces: seq<string>)
    ensures |pieces| > 0
    decreases |s|
  {
    var i := CommaAt(s);
    if i == |s| then [s] else [s[..i]] + Split(s[i + 1..])
  }

  /** The trimmed, nonempty pieces in order. */
  function Kept(pieces: seq<string>): seq<string> {
    if pieces == [] then []
    else (if TrimSpace(pieces[0]) == "" then [] else [TrimSpace(pieces[0])]) + Kept(pieces[1..])
  }

  function Names(s: string): seq<string> {
    Kept(Split(s))
  }

  function Join(names: seq<string>): string {
    if names == [] then "" else if |names| == 1 then names[0] else names[0] + "," + Join(names[1..])
  }

  predicate Trimmed(s: string) {
    s != "" && !IsSpace(s[0]) && !IsSpace(s[|s| - 1])
  }

  predicate IsName(s: string) {
    Trimmed(s) && ',' !in s
  }

  lemma {:induction false} TrimLeftShape(s: string)
    ensures exists k :: 0 <= k <= |s| && TrimLeft(s) == s[k..]
    ensures TrimLeft(s) != "" ==> !IsSpace(TrimLeft(s)[0])
  {
    if s != [] && IsSpace(s[0]) {
      TrimLeftShape(s[1..]);
      var k :| 0 <= k <= |s| - 1 && TrimLeft(s[1..]) == s[1..][k..];
      assert TrimLeft(s) == s[k + 1..];
    } else {
      assert TrimLeft(s) == s[0..];
    }
  }

  lemma {:induction false} TrimRightShape(s: string)
    ensures exists k :: 0 <= k <= |s| && TrimRight(s) == s[..k]
    ensures TrimRight(s) != "" ==> !IsSpace(TrimRight(s)[|TrimRight(s)| - 1])
  {
    if s != [] && IsSpace(s[|s| - 1]) {
      TrimRightShape(s[..|s| - 1]);
      var k :| 0 <= k <= |s| - 1 && TrimRight(s[..|s| - 1]) == s[..|s| - 1][..k];
      assert TrimRight(s) == s[..k];
    } else {
      assert TrimRight(s) == s[..|s|];
    }
  }

  /** A trimmed piece is empty or has no space at either end, and contains nothing new. */
  lemma TrimSpaceShape(s: string)
    ensures TrimSpace(s) != "" ==> Trimmed(TrimSpace(s))
    ensures ',' !in s ==> ',' !in TrimSpace(s)
  {
    TrimLeftShape(s);
    TrimRightShape(TrimLeft(s));
  }

  lemma TrimSpaceFixed(s: string)
    requires Trimmed(s)
    ensures TrimSpace(s) == s
  {
  }

  lemma {:induction false} SplitShape(s: string)
    ensures forall p :: p in Split(s) ==> ',' !in p
    decreases |s|
  {
    var i := CommaAt(s);
    if i == |s| {
      assert s[..i] == s;
    } else {
      SplitShape(s[i + 1..]);
    }
  }

  lemma {:induction false} KeptShape(pieces: seq<string>)
    requires forall p :: p in pieces ==> ',' !in p
    ensures forall n :: n in Kept(pieces) ==> IsName(n)
  {
    if pieces != [] {
      TrimSpaceShape(pieces[0]);
      KeptShape(pieces[1..]);
      hide TrimSpace;
    }
  }

  lemma {:induction false} KeptFixed(names: seq<string>)
    requires forall n :: n in names ==> IsName(n)
    ensures Kept(names) == names
  {
    if names != [] {
      assert names[0] in names;
      TrimSpaceFixed(names[0]);
      KeptFixed(names[1..]);
      hide TrimSpace;
    }
  }

  lemma SplitFirst(a: string, rest: string)
    requires ',' !in a
    ensures CommaAt(a + "," + rest) == |a|
    ensures Split(a + "," + rest) == [a] + Split(rest)
  {
    var s := a + "," + rest;
    var i := CommaAt(s);
    assert s[|a|] == ',';
    assert s[..i] == a && s[i + 1..] == rest;
  }

  lemma SplitSingle(a: string)
    requires ',' !in a
    ensures Split(a) == [a]
  {
  }

  lemma {:induction false} SplitJoin(names: seq<string>)
    requires names != [] && forall n :: n in names ==> ',' !in n
    ensures Split(Join(names)) == names
  {
    if |names| == 1 {
      SplitSingle(names[0]);
    } else {
      SplitJoin(names[1..]);
      SplitFirst(names[0], Join(names[1..]));
    }
  }

  /** The characters with Unicode's White_Space property, by their code points. */
  lemma SpacesAre(c: char)
    ensures IsSpace(c) <==>
            var n := c as int;
            9 <= n <= 13 || n in {32, 133, 160, 5760, 8232, 8233, 8239, 8287, 12288} || 8192 <= n <= 8202
  {
  }

  predicate AllSpaces(s: string) {
    forall i :: 0 <= i < |s| ==> IsSpace(s[i])
  }

  lemma {:induction false} TrimLeftSkips(a: string, s: string)
    requires AllSpaces(a)
    ensures TrimLeft(a + s) == TrimLeft(s)
  {
    if a == [] {
      assert a + s == s;
    } else {
      assert (a + s)[0] == a[0] && (a + s)[1..] == a[1..] + s;
      TrimLeftSkips(a[1..], s);
    }
  }

  lemma {:induction false} TrimRightSkips(s: string, b: string)
    requires AllSpaces(b)
    ensures TrimRight(s + b) == TrimRight(s)
  {
    if b == [] {
      assert s + b == s;
    } else {
      var n := |s + b| - 1;
      assert (s + b)[n] == b[|b| - 1] && (s + b)[..n] == s + b[..|b| - 1];
      TrimRightSkips(s, b[..|b| - 1]);
    }
  }

  /** Trimming takes off the spaces around a name, all of them and nothing else. */
  lemma TrimSpacePadded(a: string, name: string, b: string)
    requires AllSpaces(a) && AllSpaces(b) && (name == "" || Trimmed(name))
    ensures TrimSpace(a + name + b) == name
  {
    if name == "" {
      assert a + name + b == (a + b) + "";
      TrimLeftSkips(a + b, "");
    } else {
      assert a + name + b == a + (name + b);
      TrimLeftSkips(a, name + b);
      assert (name + b)[0] == name[0];
      TrimRightSkips(name, b);
    }
  }

  /** A piece of the flag: a name, or nothing, with spaces around it. */
  datatype Piece = Piece(before: string, name: string, after: string)

  predicate IsPiece(p: Piece) {
    AllSpaces(p.before) && AllSpaces(p.after) && (p.name == "" || IsName(p.name))
  }

  function TextOf(p: Piece): string {
    p.before + p.name + p.after
  }

  function TextsOf(ps: seq<Piece>): seq<string> {
    if ps == [] then [] else [TextOf(ps[0])] + TextsOf(ps[1..])
  }

  function NamesOf(ps: seq<Piece>): seq<string> {
    if ps == [] then [] else (if ps[0].name == "" then [] else [ps[0].name]) + NamesOf(ps[1..])
  }

  lemma {:induction false} KeptOfPieces(ps: seq<Piece>)
    requires forall p :: p in ps ==> IsPiece(p)
    ensures Kept(TextsOf(ps)) == NamesOf(ps) && forall t :: t in TextsOf(ps) ==> ',' !in t
  {
    if ps != [] {
      var p := ps[0];
      assert p in ps && forall q :: q in ps[1..] ==> q in ps;
      TrimSpacePadded(p.before, p.name, p.after);
      KeptOfPieces(ps[1..]);
      assert TextsOf(ps)[0] == TextOf(p) && TextsOf(ps)[1..] == TextsOf(ps[1..]);
      hide TrimSpace, IsName;
    }
  }

  /**
   * Parsing comma-joined pieces yields the names in them, in order: spaces around a name and pieces
   * without one make no difference.
   */
  lemma ParseOfPieces(ps: seq<Piece>)
    requires forall p :: p in ps ==> IsPiece(p)
    ensures Names(Join(TextsOf(ps))) == NamesOf(ps)
  {
    KeptOfPieces(ps);
    if ps == [] {
      SplitSingle("");
      assert Kept([""]) == [];
    } else {
      SplitJoin(TextsOf(ps));
    }
    hide IsPiece;
  }

  /** What Parse returns: trimmed, nonempty, comma-free names. */
  lemma NamesAreNames(s: string)
    ensures forall n :: n in Names(s) ==> IsName(n)
  {
    SplitShape(s);
    KeptShape(Split(s));
  }

  /** Parsing a joined list of names gives the list back. */
  lemma ParseOfJoin(names: seq<string>)
    requires forall n :: n in names ==> IsName(n)
    ensures Names(Join(names)) == names
  {
    if names == [] {
      SplitSingle("");
      assert Kept([""]) == [];
    } else {
      SplitJoin(names);
      KeptFixed(names);
    }
  }

  /** Parse-join-parse equals parse, for every input. */
  lemma ParseJoinParse(s: string)
    ensures Names(Join(Names(s))) == Names(s)
  {
    NamesAreNames(s);
    ParseOfJoin(Names(s));
  }

  /** The scope: names, and whether a selector is set. */
  datatype Namespaces = Namespaces(names: seq<string>, selector: Option<string>)

  datatype Result<T> = Ok(value: T) | Err(error: Error)

  datatype Error = BadSelector | ListFailed | NoNamespaces | NamespacesChanged

  /** The loop of Parse; `valid` says whether the selector parses. */
  method Parse(names: string, selector: string, valid: bool) returns (r: Result<Namespaces>)
    ensures r.Ok? <==> TrimSpace(selector) == "" || valid
    ensures r.Ok? ==> r.value == Namespaces(Names(names), if TrimSpace(selector) == "" then None else Some(selector))
    ensures r.Err? ==> r.error == BadSelector
  {
    var out: seq<string> := [];
    var pieces := Split(names);
    var i := 0;
    while i < |pieces|
      invariant 0 <= i <= |pieces|
      invariant out + Kept(pieces[i..]) == Names(names)
    {
      assert pieces[i..][1..] == pieces[i + 1..];
      var name := TrimSpace(pieces[i]);
      if name != "" {
        out := out + [name];
      }
      i := i + 1;
    }
    if TrimSpace(selector) != "" {
      if !valid {
        return Err(BadSelector);
      }
      return Ok(Namespaces(out, Some(selector)));
    }
    return Ok(Namespaces(out, None));
  }

  // ---- Resolve ----

  /** Go's order on strings. */
  predicate Less(a: string, b: string) {
    b != [] && (a == [] || a[0] < b[0] || (a[0] == b[0] && Less(a[1..], b[1..])))
  }

  lemma {:induction false} LessTransitive(a: string, b: string, c: string)
    requires Less(a, b) && Less(b, c)
    ensures Less(a, c)
  {
    if a != [] && a[0] == b[0] && b[0] == c[0] {
      LessTransitive(a[1..], b[1..], c[1..]);
    }
  }

  lemma {:induction false} LessTotal(a: string, b: string)
    ensures (if Less(a, b) then 1 else 0) + (if Less(b, a) then 1 else 0) + (if a == b then 1 else 0) == 1
  {
    if a != [] && b != [] && a[0] == b[0] {
      LessTotal(a[1..], b[1..]);
      assert a == [a[0]] + a[1..] && b == [b[0]] + b[1..];
    }
  }

  predicate Ordered(s: seq<string>) {
    forall i, j :: 0 <= i < j < |s| ==> s[i] == s[j] || Less(s[i], s[j])
  }

  predicate StrictlyOrdered(s: seq<string>) {
    forall i, j :: 0 <= i < j < |s| ==> Less(s[i], s[j])
  }

  function Elements(s: seq<string>): set<string> {
    set x | x in s
  }

  function Insert(x: string, s: seq<string>): seq<string> {
    if s == [] || !Less(s[0], x) then [x] + s else [s[0]] + Insert(x, s[1..])
  }

  /** slices.Sort, by insertion. */
  function Sort(s: seq<string>): seq<string> {
    if s == [] then [] else Insert(s[0], Sort(s[1..]))
  }

  /** slices.Compact: one copy of each run of equal elements. */
  function Compact(s: seq<string>): seq<string> {
    if |s| < 2 then s
    else if s[0] == s[1] then Compact(s[1..])
    else [s[0]] + Compact(s[1..])
  }

  lemma ElementsCons(x: string, s: seq<string>)
    ensures Elements([x] + s) == {x} + Elements(s)
  {
  }

  lemma NoElements(s: seq<string>)
    ensures Elements(s) == {} <==> s == []
  {
    if s != [] {
      assert s[0] in Elements(s);
    }
  }

  lemma {:induction false} InsertOrdered(x: string, s: seq<string>)
    requires Ordered(s)
    ensures Ordered(Insert(x, s)) && Elements(Insert(x, s)) == {x} + Elements(s)
    ensures multiset(Insert(x, s)) == multiset{x} + multiset(s)
  {
    if s == [] {
    } else if !Less(s[0], x) {
      LessTotal(s[0], x);
      forall j | 0 <= j < |s|
        ensures x == s[j] || Less(x, s[j])
      {
        if x != s[0] && s[0] != s[j] {
          LessTransitive(x, s[0], s[j]);
        }
      }
    } else {
      InsertOrdered(x, s[1..]);
      assert s == [s[0]] + s[1..];
      var t := Insert(x, s[1..]);
      ElementsCons(s[0], t);
      ElementsCons(s[0], s[1..]);
      forall j | 0 <= j < |t|
        ensures s[0] == t[j] || Less(s[0], t[j])
      {
        assert t[j] in Elements(t);
      }
    }
  }

  /** Sorting yields an ordered permutation. */
  lemma {:induction false} SortOrdered(s: seq<string>)
    ensures Ordered(Sort(s)) && Elements(Sort(s)) == Elements(s) && multiset(Sort(s)) == multiset(s)
  {
    if s != [] {
      SortOrdered(s[1..]);
      InsertOrdered(s[0], Sort(s[1..]));
      assert s == [s[0]] + s[1..];
    }
  }

  lemma {:induction false} CompactStrict(s: seq<string>)
    requires Ordered(s)
    ensures StrictlyOrdered(Compact(s)) && Elements(Compact(s)) == Elements(s)
  {
    if |s| >= 2 {
      CompactStrict(s[1..]);
      assert s == [s[0]] + s[1..];
      var t := Compact(s[1..]);
      ElementsCons(s[0], t);
      ElementsCons(s[0], s[1..]);
      if s[0] != s[1] {
        forall j | 0 <= j < |t|
          ensures Less(s[0], t[j])
        {
          assert t[j] in Elements(s[1..]);
          var i :| 1 <= i < |s| && s[i] == t[j];
          if i > 1 && s[1] != s[i] {
            LessTransitive(s[0], s[1], s[i]);
          }
        }
      }
    }
  }

  /** A strictly ordered list is determined by its elements. */
  lemma {:induction false} StrictlyOrderedUnique(s: seq<string>, t: seq<string>)
    requires StrictlyOrdered(s) && StrictlyOrdered(t) && Elements(s) == Elements(t)
    ensures s == t
  {
    NoElements(s);
    NoElements(t);
    if s != [] {
      assert s[0] in Elements(t);
      assert t[0] in Elements(s);
      FirstIsLeast(s, t[0]);
      FirstIsLeast(t, s[0]);
      LessTotal(s[0], t[0]);
      RestElements(s);
      RestElements(t);
      StrictlyOrderedUnique(s[1..], t[1..]);
    }
  }

  lemma FirstIsLeast(s: seq<string>, x: string)
    requires StrictlyOrdered(s) && x in s
    ensures s[0] == x || Less(s[0], x)
  {
  }

  lemma RestElements(s: seq<string>)
    requires StrictlyOrdered(s) && s != []
    ensures Elements(s[1..]) == Elements(s) - {s[0]}
  {
    LessTotal(s[0], s[0]);
    assert s == [s[0]] + s[1..];
  }

  /** What Resolve selects: the names and, with a selector, the namespaces the list call returned. */
  function Selected(n: Namespaces, listing: Option<seq<string>>): set<string> {
    Elements(n.names) + (if n.selector.Some? && listing.Some? then Elements(listing.value) else {})
  }

  predicate ListWorks(n: Namespaces, listing: Option<seq<string>>) {
    n.selector.Some? ==> listing.Some?
  }

  function Resolved(n: Namespaces, listing: Option<seq<string>>): seq<string> {
    Compact(Sort(if n.selector.Some? && listing.Some? then n.names + listing.value else n.names))
  }

  /** Resolve returns the strictly sorted list of exactly the selected namespaces. */
  lemma ResolvedIsSelected(n: Namespaces, listing: Option<seq<string>>)
    ensures StrictlyOrdered(Resolved(n, listing)) && Elements(Resolved(n, listing)) == Selected(n, listing)
  {
    var out := if n.selector.Some? && listing.Some? then n.names + listing.value else n.names;
    SortOrdered(out);
    CompactStrict(Sort(out));
  }

  /** Neither the order nor the repetition of names or listed namespaces matters: only the set does. */
  lemma ResolvedBySet(n: Namespaces, listing: Option<seq<string>>, current: seq<string>)
    requires StrictlyOrdered(current)
    ensures Resolved(n, listing) == current <==> Selected(n, listing) == Elements(current)
  {
    ResolvedIsSelected(n, listing);
    if Selected(n, listing) == Elements(current) {
      StrictlyOrderedUnique(Resolved(n, listing), current);
    }
  }

  method Resolve(n: Namespaces, listing: Option<seq<string>>) returns (r: Result<seq<string>>)
    ensures r == if ListWorks(n, listing) then Ok(Resolved(n, listing)) else Err(ListFailed)
    ensures r.Ok? ==> StrictlyOrdered(r.value) && Elements(r.value) == Selected(n, listing)
  {
    var out := n.names;
    if n.selector.Some? {
      if listing.None? {
        return Err(ListFailed);
      }
      var items, i := listing.value, 0;
      while i < |items|
        invariant 0 <= i <= |items| && out == n.names + items[..i]
      {
        out := out + [items[i]];
        i := i + 1;
      }
      assert items[..i] == items;
    }
    ResolvedIsSelected(n, listing);
    out := Sort(out);
    return Ok(Compact(out));
  }

  predicate Enabled(n: Namespaces) {
    |n.names| > 0 || n.selector.Some?
  }

  /** The names to watch and the cache's map over them; None when the scope is not set. */
  method CacheNamespaces(n: Namespaces, listing: Option<seq<string>>) returns (r: Result<Option<(seq<string>,
      map<string, ()>)>>)
    ensures n.names == [] && n.selector.None? <==> r == Ok(None)
    ensures n.selector.Some? && listing.None? <==> r == Err(ListFailed)
    ensures (n.names != [] || n.selector.Some?) && (n.selector.Some? ==> listing.Some?) ==>
              (Selected(n, listing) == {} <==> r == Err(NoNamespaces))
    ensures r.Ok? && r.value.Some? ==>
              var (names, cfg) := r.value.value;
              StrictlyOrdered(names) && Elements(names) == Selected(n, listing) && cfg.Keys == Selected(n, listing)
  {
    if !Enabled(n) {
      return Ok(None);
    }
    var res := Resolve(n, listing);
    if res.Err? {
      return Err(res.error);
    }
    var names := res.value;
    if |names| == 0 {
      return Err(NoNamespaces);
    }
    assert names[0] in Elements(names);
    var cfg: map<string, ()> := map[];
    var i := 0;
    while i < |names|
      invariant 0 <= i <= |names|
      invariant cfg.Keys == Elements(names[..i])
    {
      cfg := cfg[names[i] := ()];
      i := i + 1;
    }
    assert names[..i] == names;
    return Ok(Some((names, cfg)));
  }

  // ---- Watcher ----

  /** What the watcher's select statement picks next: the end of the context, or a tick and its list call. */
  datatype Event = Done | Tick(listing: Option<seq<string>>)

  datatype Verdict = Stopped | Changed | StillRunning

  class Watcher {
    const namespaces: Namespaces
    const current: seq<string>

    constructor (namespaces: Namespaces, current: seq<string>)
      ensures this.namespaces == namespaces && this.current == current
    {
      this.namespaces := namespaces;
      this.current := current;
    }

    /** A successful poll that found another set of namespaces than the current one. */
    ghost predicate Different(e: Event) {
      e.Tick? && ListWorks(namespaces, e.listing) && Selected(namespaces, e.listing) != Elements(current)
    }

    /**
     * Over any sequence of events, Start stops with the change exactly at the first successful poll
     * whose set differs, unless the context ended before; failed polls never stop it.
     */
    method Start(events: seq<Event>) returns (v: Verdict, k: nat)
      requires StrictlyOrdered(current)
      ensures k <= |events| && forall j :: 0 <= j < k ==> !events[j].Done? && !Different(events[j])
      ensures v.StillRunning? <==> k == |events|
      ensures v.Stopped? <==> k < |events| && events[k].Done?
      ensures v.Changed? <==> k < |events| && Different(events[k])
    {
      k := 0;
      while k < |events|
        invariant k <= |events| && forall j :: 0 <= j < k ==> !events[j].Done? && !Different(events[j])
      {
        match events[k] {
          case Done => return Stopped, k;
          case Tick(listing) =>
            var names := Resolve(namespaces, listing);
            if names.Ok? {
              ResolvedBySet(namespaces, listing, current);
              if names.value != current {
                return Changed, k;
              }
            }
        }
        k := k + 1;
      }
      return StillRunning, k;
    }
  }
}
