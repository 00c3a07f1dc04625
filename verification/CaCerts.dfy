/**
 The merged map of additional CA certificates: all source config maps copied into one, with the revisions of
 the sources printed into an annotation. If the printed revisions parse back to the current ones, the merge is
 skipped, so the annotation is a cache key that must not lie.
 */
module CaCerts {
  import opened Cluster
  import opened Strings
  import Sync
  import Deploy

  const REVISIONS := "che.eclipse.org/included-configmaps"

  const EQUAL_SIGN := '-'
  const COMMA_SIGN := '.'

  /** A source config map, as read. */
  datatype Source = Source(name: string, revision: string, data: Fields)

  function MergedKey(cr: Key): Key {
    Key(ConfigMap, cr.namespace, "ca-certs-merged")
  }

  // ---------- the merge ----------

  function DataKey(s: Source, k: string): string {
    s.name + "." + k
  }

  function DataKeys(s: Source): set<string> {
    set k | k in s.data :: DataKey(s, k)
  }

  /** The data of one source under keys that start with its name. */
  function Prefixed(s: Source): Fields {
    map p | p in DataKeys(s) :: s.data[p[|s.name| + 1..]]
  }

  function MergedData(l: seq<Source>): Fields {
    if l == [] then map[] else MergedData(l[..|l| - 1]) + Prefixed(l[|l| - 1])
  }

  /** The revision of every source name, the last one winning. */
  function CurrentRevisions(l: seq<Source>): Fields {
    if l == [] then map[] else CurrentRevisions(l[..|l| - 1])[l[|l| - 1].name := l[|l| - 1].revision]
  }

  // ---------- printing and parsing revisions ----------

  function Entry(s: Source): string {
    s.name + [EQUAL_SIGN] + s.revision
  }

  function Entries(l: seq<Source>): (r: seq<string>)
    ensures |r| == |l| && forall i | 0 <= i < |l| :: r[i] == Entry(l[i])
  {
    seq(|l|, i requires 0 <= i < |l| => Entry(l[i]))
  }

  function Printed(l: seq<Source>): string {
    Join(Entries(l), COMMA_SIGN)
  }

  /** Entries up to the first one that does not have exactly two parts, a later one winning. */
  function ParsedEntries(entries: seq<string>): Fields {
    if entries == [] then map[]
    else
      var parts := Split(entries[0], EQUAL_SIGN);
      if |parts| != 2 then map[] else map[parts[0] := parts[1]] + ParsedEntries(entries[1..])
  }

  function Parsed(revisions: string): Fields {
    ParsedEntries(Split(revisions, COMMA_SIGN))
  }

  function CachedRevisions(merged: Obj): Fields {
    if REVISIONS in merged.annotations then Parsed(merged.annotations[REVISIONS]) else map[]
  }

  predicate SeparatorFree(s: string) {
    Free(s, EQUAL_SIGN) && Free(s, COMMA_SIGN)
  }

  /** Revisions are numbers, so they never contain a separator; names may. */
  predicate PlainRevisions(l: seq<Source>) {
    forall s | s in l :: SeparatorFree(s.revision)
  }

  predicate PlainNames(l: seq<Source>) {
    forall s | s in l :: SeparatorFree(s.name)
  }

  lemma {:induction false} ParsedKeysAreFree(entries: seq<string>)
    requires forall i | 0 <= i < |entries| :: Free(entries[i], COMMA_SIGN)
    ensures forall k | k in ParsedEntries(entries) :: SeparatorFree(k)
  {
    if entries != [] {
      SplitKeepsFree(entries[0], EQUAL_SIGN, COMMA_SIGN);
      ParsedKeysAreFree(entries[1..]);
    }
  }

  lemma EntryParts(s: Source)
    requires SeparatorFree(s.name) && SeparatorFree(s.revision)
    ensures Split(Entry(s), EQUAL_SIGN) == [s.name, s.revision]
    ensures Free(Entry(s), COMMA_SIGN)
  {
    SplitFirst(s.name, s.revision, EQUAL_SIGN);
    SplitOne(s.revision, EQUAL_SIGN);
  }

  lemma {:induction false} CurrentRevisionsFront(l: seq<Source>)
    requires l != []
    ensures CurrentRevisions(l) == map[l[0].name := l[0].revision] + CurrentRevisions(l[1..])
  {
    var front := l[..|l| - 1];
    if front != [] {
      CurrentRevisionsFront(front);
      assert l[1..][..|l| - 2] == front[1..];
      assert front[0] == l[0];
    } else {
      assert l[1..] == [];
    }
  }

  lemma {:induction false} EntriesParse(l: seq<Source>)
    requires PlainNames(l) && PlainRevisions(l)
    ensures ParsedEntries(Entries(l)) == CurrentRevisions(l)
  {
    if l != [] {
      EntryParts(l[0]);
      EntriesParse(l[1..]);
      CurrentRevisionsFront(l);
      assert Entries(l)[1..] == Entries(l[1..]);
    }
  }

  lemma {:induction false} CurrentRevisionsKeys(l: seq<Source>)
    ensures CurrentRevisions(l).Keys == set s | s in l :: s.name
  {
    if l != [] {
      CurrentRevisionsKeys(l[..|l| - 1]);
      assert l == l[..|l| - 1] + [l[|l| - 1]];
    }
  }

  /** Parsing the printed revisions gives back the revision of every source, exactly if no source name
      contains a separator. That includes the empty list and a source that is listed twice. */
  lemma PrintParse(l: seq<Source>)
    requires PlainRevisions(l)
    ensures Parsed(Printed(l)) == CurrentRevisions(l) <==> PlainNames(l)
  {
    CurrentRevisionsKeys(l);
    if PlainNames(l) {
      if l == [] {
        SplitOne("", EQUAL_SIGN);
      } else {
        forall i | 0 <= i < |l| ensures Free(Entries(l)[i], COMMA_SIGN) {
          EntryParts(l[i]);
        }
        SplitJoin(Entries(l), COMMA_SIGN);
        EntriesParse(l);
      }
    } else {
      var s :| s in l && !SeparatorFree(s.name);
      ParsedKeysAreFree(Split(Printed(l), COMMA_SIGN));
      assert s.name in CurrentRevisions(l).Keys;
    }
  }

  // ---------- agreement of the cache with the merge ----------

  /** What is known of any list of sources: the revision of a name determines its content, and revisions, being
      numbers, contain no separator. A name may be listed twice, and a change between the two reads makes it
      appear with two revisions. */
  ghost predicate Determined(l: seq<Source>, content: (string, string) -> Fields) {
    PlainRevisions(l) && forall s | s in l :: s.data == content(s.name, s.revision)
  }

  /** A list without torn reads: all reads of a name saw the same state. */
  ghost predicate Consistent(l: seq<Source>, content: (string, string) -> Fields) {
    Determined(l, content) && OneRevisionEach(l)
  }

  predicate DotFree(l: seq<Source>) {
    forall s | s in l :: Free(s.name, COMMA_SIGN)
  }

  predicate OneRevisionEach(l: seq<Source>) {
    forall s, t | s in l && t in l && s.name == t.name :: s.revision == t.revision
  }

  lemma {:induction false} FirstSeparator(a: string, x: string, b: string, y: string, sep: char)
    requires Free(a, sep) && Free(b, sep) && a + [sep] + x == b + [sep] + y
    ensures a == b && x == y
  {
    SplitFirst(a, x, sep);
    SplitFirst(b, y, sep);
    assert a == ([a] + Split(x, sep))[0] == ([b] + Split(y, sep))[0];
    assert x == (a + [sep] + x)[|a| + 1..] == y;
  }

  /** Data keys of different sources never collide. */
  lemma PrefixesDisjoint(s: Source, t: Source)
    requires Free(s.name, COMMA_SIGN) && Free(t.name, COMMA_SIGN) && s.name != t.name
    ensures Prefixed(s).Keys !! Prefixed(t).Keys
  {
    forall p | p in Prefixed(s) && p in Prefixed(t) ensures false {
      var j :| j in s.data && p == DataKey(s, j);
      var k :| k in t.data && p == DataKey(t, k);
      FirstSeparator(s.name, j, t.name, k, COMMA_SIGN);
    }
  }

  lemma {:induction false} MergedLookup(l: seq<Source>, content: (string, string) -> Fields, s: Source)
    requires Consistent(l, content) && DotFree(l) && s in l
    ensures forall p | p in Prefixed(s) :: p in MergedData(l) && MergedData(l)[p] == Prefixed(s)[p]
  {
    var front, last := l[..|l| - 1], l[|l| - 1];
    assert l == front + [last];
    if s in front {
      MergedLookup(front, content, s);
      if s.name != last.name {
        PrefixesDisjoint(s, last);
      }
    }
  }

  lemma {:induction false} MergedOrigin(l: seq<Source>, p: string)
    requires p in MergedData(l)
    ensures exists s :: s in l && p in Prefixed(s)
  {
    var front, last := l[..|l| - 1], l[|l| - 1];
    assert l == front + [last];
    if p !in Prefixed(last) {
      MergedOrigin(front, p);
    } else {
      assert last in l;
    }
  }

  lemma {:induction false} RevisionIsCurrent(l: seq<Source>, s: Source)
    requires OneRevisionEach(l) && s in l
    ensures s.name in CurrentRevisions(l) && CurrentRevisions(l)[s.name] == s.revision
  {
    var front, last := l[..|l| - 1], l[|l| - 1];
    assert l == front + [last];
    if s.name != last.name {
      RevisionIsCurrent(front, s);
    }
  }

  lemma {:induction false} CurrentIsListed(l: seq<Source>, name: string)
    requires name in CurrentRevisions(l)
    ensures exists s :: s in l && s.name == name && s.revision == CurrentRevisions(l)[name]
  {
    var front, last := l[..|l| - 1], l[|l| - 1];
    assert l == front + [last];
    if name != last.name {
      CurrentIsListed(front, name);
    } else {
      assert last in l;
    }
  }

  lemma {:induction false} MergeIncluded(l: seq<Source>, m: seq<Source>, content: (string, string) -> Fields)
    requires Consistent(l, content) && DotFree(l) && Consistent(m, content) && DotFree(m)
    requires CurrentRevisions(l) == CurrentRevisions(m)
    ensures forall p | p in MergedData(l) :: p in MergedData(m) && MergedData(m)[p] == MergedData(l)[p]
  {
    forall p | p in MergedData(l) ensures p in MergedData(m) && MergedData(m)[p] == MergedData(l)[p] {
      MergedOrigin(l, p);
      var s :| s in l && p in Prefixed(s);
      RevisionIsCurrent(l, s);
      CurrentIsListed(m, s.name);
      var t :| t in m && t.name == s.name && t.revision == s.revision;
      assert s == t;
      MergedLookup(l, content, s);
      MergedLookup(m, content, s);
    }
  }

  /** Equal revisions mean equal merges, however the sources are ordered or repeated. */
  lemma {:induction false} RevisionsDetermineMerge(l: seq<Source>, m: seq<Source>, content: (string, string) -> Fields)
    requires Consistent(l, content) && DotFree(l) && Consistent(m, content) && DotFree(m)
    requires CurrentRevisions(l) == CurrentRevisions(m)
    ensures MergedData(l) == MergedData(m)
  {
    MergeIncluded(l, m, content);
    MergeIncluded(m, l, content);
  }

  /** A merged map as this function writes it, from some list of sources. */
  ghost predicate Honest(o: Obj, content: (string, string) -> Fields) {
    exists l: seq<Source> :: IsMergeOf(o, l) && Determined(l, content)
  }

  ghost function HonestFor(content: (string, string) -> Fields): Obj -> bool {
    o => Honest(o, content)
  }

  ghost predicate IsMergeOf(o: Obj, l: seq<Source>) {
    o.spec == MergedData(l) && REVISIONS in o.annotations && o.annotations[REVISIONS] == Printed(l)
  }

  // ---------- what any list reads back as ----------

  /** The printed list cut at its dots: a source with dots in its name falls apart. */
  function PiecesOf(l: seq<Source>): seq<string> {
    if l == [] then [] else Split(Entry(l[0]), COMMA_SIGN) + PiecesOf(l[1..])
  }

  /** The pieces taken for sources: those of exactly two parts, up to the first other one. */
  function LegiblePieces(pieces: seq<string>): seq<Source> {
    if pieces == [] then []
    else
      var parts := Split(pieces[0], EQUAL_SIGN);
      if |parts| != 2 then [] else [Source(parts[0], parts[1], map[])] + LegiblePieces(pieces[1..])
  }

  function Legible(l: seq<Source>): seq<Source> {
    LegiblePieces(PiecesOf(l))
  }

  lemma {:induction false} PrintedPieces(l: seq<Source>)
    requires l != []
    ensures Split(Printed(l), COMMA_SIGN) == PiecesOf(l)
  {
    assert Entries(l)[1..] == Entries(l[1..]);
    if |l| == 1 {
      assert PiecesOf(l[1..]) == [];
    } else {
      PrintedPieces(l[1..]);
      SplitConcat(Entry(l[0]), Printed(l[1..]), COMMA_SIGN);
    }
  }

  lemma {:induction false} LegibleParse(pieces: seq<string>)
    ensures ParsedEntries(pieces) == CurrentRevisions(LegiblePieces(pieces))
  {
    if pieces != [] && |Split(pieces[0], EQUAL_SIGN)| == 2 {
      LegibleParse(pieces[1..]);
      CurrentRevisionsFront(LegiblePieces(pieces));
    }
  }

  /** What the printed revisions of any list parse back to. */
  lemma {:induction false} ReadBack(l: seq<Source>)
    ensures Parsed(Printed(l)) == CurrentRevisions(Legible(l))
  {
    if l == [] {
      SplitOne("", EQUAL_SIGN);
    } else {
      PrintedPieces(l);
    }
    LegibleParse(PiecesOf(l));
  }

  /** The sources before the first one whose name contains a separator. */
  function PlainPrefix(l: seq<Source>): (r: seq<Source>)
    ensures PlainNames(r) && r <= l
  {
    if l == [] || !SeparatorFree(l[0].name) then [] else [l[0]] + PlainPrefix(l[1..])
  }

  /** Reading stops at this source: what comes before the first dot does not look like a source. */
  predicate Stops(s: Source) {
    |Split(Split(Entry(s), COMMA_SIGN)[0], EQUAL_SIGN)| != 2
  }

  predicate StopsAtFirst(l: seq<Source>) {
    l != [] ==> if SeparatorFree(l[0].name) then StopsAtFirst(l[1..]) else Stops(l[0])
  }

  /** A dash in a name without dots stops the reading. */
  lemma DashStops(s: Source)
    requires Free(s.name, COMMA_SIGN) && SeparatorFree(s.revision) && !SeparatorFree(s.name)
    ensures Stops(s)
  {
    SplitOne(Entry(s), COMMA_SIGN);
    if |Split(Entry(s), EQUAL_SIGN)| == 2 {
      TwoPartsMeanNoDash(s);
    }
  }

  lemma {:induction false} DotFreeStops(l: seq<Source>)
    requires DotFree(l) && PlainRevisions(l)
    ensures StopsAtFirst(l)
  {
    if l != [] {
      if SeparatorFree(l[0].name) {
        DotFreeStops(l[1..]);
      } else {
        DashStops(l[0]);
      }
    }
  }

  /** Then a list reads back as the sources before the first one with a separator in its name. */
  lemma {:induction false} LegibleIsPrefix(l: seq<Source>)
    requires PlainRevisions(l) && StopsAtFirst(l)
    ensures CurrentRevisions(Legible(l)) == CurrentRevisions(PlainPrefix(l))
  {
    if l != [] {
      var pieces := Split(Entry(l[0]), COMMA_SIGN);
      if SeparatorFree(l[0].name) {
        EntryParts(l[0]);
        SplitOne(Entry(l[0]), COMMA_SIGN);
        LegibleIsPrefix(l[1..]);
        assert PiecesOf(l)[1..] == PiecesOf(l[1..]);
        CurrentRevisionsFront(Legible(l));
        CurrentRevisionsFront(PlainPrefix(l));
      } else {
        assert PiecesOf(l)[0] == pieces[0];
      }
    }
  }

  /** Not every name with a separator stops the reading: one of the form x-y.z reads as two other sources. */
  lemma DottedNameReadsAsTwo(s: Source, x: string, y: string, z: string)
    requires SeparatorFree(x) && SeparatorFree(y) && SeparatorFree(z) && SeparatorFree(s.revision)
    requires s.name == x + [EQUAL_SIGN] + y + [COMMA_SIGN] + z
    ensures Legible([s]) == [Source(x, y, map[]), Source(z, s.revision, map[])]
  {
    var first, second := Source(x, y, map[]), Source(z, s.revision, map[]);
    EntryParts(first);
    EntryParts(second);
    assert Entry(s) == Entry(first) + [COMMA_SIGN] + Entry(second);
    SplitFirst(Entry(first), Entry(second), COMMA_SIGN);
    SplitOne(Entry(second), COMMA_SIGN);
    assert [s][1..] == [];
    assert PiecesOf([s]) == [Entry(first), Entry(second)];
    assert [Entry(first), Entry(second)][1..] == [Entry(second)] && [Entry(second)][1..] == [];
    assert LegiblePieces([]) == [];
    assert LegiblePieces([Entry(second)]) == [second];
  }

  // ---------- the shortcut ----------

  /** Exactly when the merge is skipped: the list behind the merged map reads back as the current sources. None
      of them has a separator in its name then. */
  lemma {:induction false} SkipsIfLegible(o: Obj, l: seq<Source>, sources: seq<Source>)
    requires IsMergeOf(o, l)
    ensures CachedRevisions(o) == CurrentRevisions(sources)
        <==> CurrentRevisions(Legible(l)) == CurrentRevisions(sources)
  {
    ReadBack(l);
  }

  /** Whatever the merged map is, the merge is never skipped if a current source has a separator in its name. */
  lemma {:induction false} SkipsOnlyIfPlain(o: Obj, sources: seq<Source>)
    requires CachedRevisions(o) == CurrentRevisions(sources)
    ensures PlainNames(sources)
  {
    CurrentRevisionsKeys(sources);
    if REVISIONS in o.annotations {
      ParsedKeysAreFree(Split(o.annotations[REVISIONS], COMMA_SIGN));
    }
    forall s | s in sources ensures SeparatorFree(s.name) {
      assert s.name in CurrentRevisions(sources).Keys;
    }
  }

  /** The shortcut is sound if no source behind the merged map has a separator in its name. */
  lemma {:induction false} ShortcutIsSound(o: Obj, l: seq<Source>, sources: seq<Source>,
      content: (string, string) -> Fields)
    requires IsMergeOf(o, l) && Consistent(l, content) && PlainNames(l) && Consistent(sources, content)
    requires CachedRevisions(o) == CurrentRevisions(sources)
    ensures o.spec == MergedData(sources)
  {
    PrintParse(l);
    SkipsOnlyIfPlain(o, sources);
    RevisionsDetermineMerge(l, sources, content);
  }

  // ---------- exactly when a merge is right ----------

  /** The sources that are listed at these revisions. */
  function AtRevisions(l: seq<Source>, revisions: Fields): (r: seq<Source>)
    ensures forall s :: s in r <==> s in l && s.name in revisions && s.revision == revisions[s.name]
  {
    if l == [] then []
    else
      var front, last := l[..|l| - 1], l[|l| - 1];
      assert l == front + [last];
      var r := AtRevisions(front, revisions);
      if last.name in revisions && last.revision == revisions[last.name] then r + [last] else r
  }

  /** The list without torn reads: every source at the last revision it is listed with. */
  function Latest(l: seq<Source>): seq<Source> {
    AtRevisions(l, CurrentRevisions(l))
  }

  lemma {:induction false} AtRevisionsOfAll(l: seq<Source>, revisions: Fields)
    requires forall s | s in l :: s.name in revisions && s.revision == revisions[s.name]
    ensures AtRevisions(l, revisions) == l
  {
    if l != [] {
      assert l == l[..|l| - 1] + [l[|l| - 1]];
      AtRevisionsOfAll(l[..|l| - 1], revisions);
    }
  }

  lemma {:induction false} LatestOfOne(l: seq<Source>)
    requires OneRevisionEach(l)
    ensures Latest(l) == l
  {
    forall s | s in l ensures s.name in CurrentRevisions(l) && s.revision == CurrentRevisions(l)[s.name] {
      RevisionIsCurrent(l, s);
    }
    AtRevisionsOfAll(l, CurrentRevisions(l));
  }

  lemma {:induction false} LatestIsConsistent(l: seq<Source>, content: (string, string) -> Fields)
    requires Determined(l, content)
    ensures Consistent(Latest(l), content) && CurrentRevisions(Latest(l)) == CurrentRevisions(l)
  {
    CurrentRevisionsKeys(l);
    CurrentRevisionsKeys(Latest(l));
    forall name | name in CurrentRevisions(l)
      ensures name in CurrentRevisions(Latest(l)) && CurrentRevisions(Latest(l))[name] == CurrentRevisions(l)[name]
    {
      CurrentIsListed(l, name);
      var s :| s in l && s.name == name && s.revision == CurrentRevisions(l)[name];
      RevisionIsCurrent(Latest(l), s);
    }
  }

  /** What the last source of this name that has this key says. */
  function LastValue(l: seq<Source>, name: string, k: string): (r: Option<string>)
    ensures r.Some? <==> exists s :: s in l && s.name == name && k in s.data
  {
    if l == [] then None
    else
      var front, last := l[..|l| - 1], l[|l| - 1];
      assert l == front + [last];
      if last.name == name && k in last.data then Some(last.data[k]) else LastValue(front, name, k)
  }

  /** What a source says at its current revision. */
  function Due(current: Fields, content: (string, string) -> Fields, name: string, k: string): Option<string> {
    if name in current && k in content(name, current[name]) then Some(content(name, current[name])[k]) else None
  }

  lemma PrefixedHas(s: Source, name: string, k: string)
    requires Free(s.name, COMMA_SIGN) && Free(name, COMMA_SIGN)
    ensures var p := name + "." + k;
            && (p in Prefixed(s) <==> s.name == name && k in s.data)
            && (p in Prefixed(s) ==> Prefixed(s)[p] == s.data[k])
  {
    var p := name + "." + k;
    assert p[|name| + 1..] == k;
    if s.name == name && k in s.data {
      assert p == DataKey(s, k);
    }
    if p in Prefixed(s) {
      var j :| j in s.data && p == DataKey(s, j);
      FirstSeparator(s.name, j, name, k, COMMA_SIGN);
    }
  }

  /** With names without dots, the last source of a name that has a key decides what the merge says. */
  lemma {:induction false} LastValueIsMerged(l: seq<Source>, name: string, k: string)
    requires DotFree(l) && Free(name, COMMA_SIGN)
    ensures var p := name + "." + k;
            && (p in MergedData(l) <==> LastValue(l, name, k).Some?)
            && (p in MergedData(l) ==> LastValue(l, name, k) == Some(MergedData(l)[p]))
  {
    if l != [] {
      var front, last := l[..|l| - 1], l[|l| - 1];
      assert l == front + [last];
      LastValueIsMerged(front, name, k);
      PrefixedHas(last, name, k);
    }
  }

  /** The last revision of a name decides, unless a key is gone in it. */
  lemma {:induction false} LastRevisionDecides(l: seq<Source>, content: (string, string) -> Fields, name: string,
      k: string)
    requires Determined(l, content) && Due(CurrentRevisions(l), content, name, k).Some?
    ensures LastValue(l, name, k) == Due(CurrentRevisions(l), content, name, k)
  {
    var front, last := l[..|l| - 1], l[|l| - 1];
    assert l == front + [last];
    if last.name != name {
      LastRevisionDecides(front, content, name, k);
    }
  }

  lemma {:induction false} ConsistentValue(l: seq<Source>, content: (string, string) -> Fields, name: string,
      k: string)
    requires Consistent(l, content)
    ensures LastValue(l, name, k) == Due(CurrentRevisions(l), content, name, k)
  {
    if Due(CurrentRevisions(l), content, name, k).Some? {
      LastRevisionDecides(l, content, name, k);
    } else if LastValue(l, name, k).Some? {
      var s :| s in l && s.name == name && k in s.data;
      RevisionIsCurrent(l, s);
    }
  }

  /** Every key that is listed is one its source has at its current revision, and the value last listed is the
      one it has there. */
  ghost predicate Fits(l: seq<Source>, current: Fields, content: (string, string) -> Fields) {
    forall s, k | s in l && k in s.data ::
      && s.name in current
      && k in content(s.name, current[s.name])
      && LastValue(l, s.name, k) == Some(content(s.name, current[s.name])[k])
  }

  /** Every key of every current source is listed. */
  ghost predicate Covers(l: seq<Source>, current: Fields, content: (string, string) -> Fields) {
    forall name, k | name in current && k in content(name, current[name]) :: LastValue(l, name, k).Some?
  }

  lemma {:induction false} MergedLike(l: seq<Source>, m: seq<Source>)
    requires DotFree(l) && DotFree(m)
    requires forall s, k | s in l && k in s.data :: LastValue(m, s.name, k) == LastValue(l, s.name, k)
    ensures forall p | p in MergedData(l) :: p in MergedData(m) && MergedData(m)[p] == MergedData(l)[p]
  {
    forall p | p in MergedData(l) ensures p in MergedData(m) && MergedData(m)[p] == MergedData(l)[p] {
      MergedOrigin(l, p);
      var s :| s in l && p in Prefixed(s);
      var k :| k in s.data && p == DataKey(s, k);
      LastValueIsMerged(l, s.name, k);
      LastValueIsMerged(m, s.name, k);
    }
  }

  /** Exactly when the merge of one list is what the current sources ask for, torn reads included. */
  lemma {:induction false} MergeIsRight(l: seq<Source>, sources: seq<Source>, content: (string, string) -> Fields)
    requires Determined(l, content) && DotFree(l) && Determined(sources, content) && DotFree(sources)
    ensures var current := CurrentRevisions(sources);
            MergedData(l) == MergedData(Latest(sources)) <==> Fits(l, current, content) && Covers(l, current, content)
  {
    var m, current := Latest(sources), CurrentRevisions(sources);
    LatestIsConsistent(sources, content);
    CurrentRevisionsKeys(sources);
    forall name, k ensures LastValue(m, name, k) == Due(current, content, name, k) {
      ConsistentValue(m, content, name, k);
    }
    if MergedData(l) == MergedData(m) {
      SameMergeFits(l, m, current, content);
    }
    if Fits(l, current, content) && Covers(l, current, content) {
      MergedLike(l, m);
      forall s, k | s in m && k in s.data ensures LastValue(l, s.name, k) == LastValue(m, s.name, k) {
        assert LastValue(m, s.name, k).Some?;
        var t :| t in l && t.name == s.name && k in t.data;
      }
      MergedLike(m, l);
    }
  }

  lemma {:induction false} SameMergeFits(l: seq<Source>, m: seq<Source>, current: Fields,
      content: (string, string) -> Fields)
    requires DotFree(l) && DotFree(m) && MergedData(l) == MergedData(m)
    requires forall name | name in current :: Free(name, COMMA_SIGN)
    requires forall name, k :: LastValue(m, name, k) == Due(current, content, name, k)
    ensures Fits(l, current, content) && Covers(l, current, content)
  {
    forall name, k | Free(name, COMMA_SIGN) ensures LastValue(l, name, k) == LastValue(m, name, k) {
      LastValueIsMerged(l, name, k);
      LastValueIsMerged(m, name, k);
    }
    forall s, k | s in l && k in s.data ensures LastValue(l, s.name, k) == Due(current, content, s.name, k) {
    }
  }

  // ---------- exactly when a skipped merge is right ----------

  /** Every listed key is one its source still has. */
  ghost predicate NothingExtra(l: seq<Source>, current: Fields, content: (string, string) -> Fields) {
    forall s, k | s in l && k in s.data :: s.name in current && k in content(s.name, current[s.name])
  }

  /** Every source that is no longer listed is empty. */
  predicate NothingLeft(l: seq<Source>, sources: seq<Source>) {
    forall s | s in l :: s.name in CurrentRevisions(sources) || s.data == map[]
  }

  /** When the merge is skipped, the current revisions are those listed before the first dash. */
  lemma {:induction false} SkippedIsPrefix(o: Obj, l: seq<Source>, sources: seq<Source>,
      content: (string, string) -> Fields)
    requires IsMergeOf(o, l) && Determined(l, content) && DotFree(l)
    requires CachedRevisions(o) == CurrentRevisions(sources)
    ensures DotFree(sources) && CurrentRevisions(PlainPrefix(l)) == CurrentRevisions(sources)
    ensures forall name | name in CurrentRevisions(sources) ::
              exists s :: s in l && s.name == name && s.revision == CurrentRevisions(sources)[name]
  {
    SkipsOnlyIfPlain(o, sources);
    DotFreeStops(l);
    LegibleIsPrefix(l);
    SkipsIfLegible(o, l, sources);
    forall name | name in CurrentRevisions(sources)
      ensures exists s :: s in l && s.name == name && s.revision == CurrentRevisions(sources)[name]
    {
      CurrentIsListed(PlainPrefix(l), name);
    }
  }

  /** If the last revision a name is listed with is the current one, values take care of themselves. */
  lemma {:induction false} NothingExtraFits(l: seq<Source>, current: Fields, content: (string, string) -> Fields)
    requires Determined(l, content) && NothingExtra(l, current, content)
    requires forall name | name in current :: name in CurrentRevisions(l) && CurrentRevisions(l)[name] == current[name]
    ensures Fits(l, current, content)
  {
    forall s, k | s in l && k in s.data
      ensures LastValue(l, s.name, k) == Some(content(s.name, current[s.name])[k])
    {
      LastRevisionDecides(l, content, s.name, k);
    }
  }

  /** Exactly when a skipped merge is right, whatever dashes there are in names and however torn the reads were:
      the list behind the merged map fits the current revisions. If that list has no dashes, or no torn reads, it
      is enough to look at its keys, and without torn reads at its names. (With a dot in a name, data keys of
      two sources can be equal.) */
  lemma {:induction false} SkipIsRight(o: Obj, l: seq<Source>, sources: seq<Source>,
      content: (string, string) -> Fields)
    requires IsMergeOf(o, l) && Determined(l, content) && DotFree(l) && Determined(sources, content)
    requires CachedRevisions(o) == CurrentRevisions(sources)
    ensures var right, current := o.spec == MergedData(Latest(sources)), CurrentRevisions(sources);
            && (right <==> Fits(l, current, content))
            && (PlainNames(l) || OneRevisionEach(l) ==> (right <==> NothingExtra(l, current, content)))
            && (OneRevisionEach(l) ==> (right <==> NothingLeft(l, sources)))
  {
    var current := CurrentRevisions(sources);
    SkippedIsPrefix(o, l, sources, content);
    MergeIsRight(l, sources, content);
    assert Covers(l, current, content);
    if OneRevisionEach(l) {
      OneRevisionIsCurrent(l, current);
      NothingLeftIsNothingExtra(l, sources, content);
    }
    if PlainNames(l) {
      PrintParse(l);
    }
    if (PlainNames(l) || OneRevisionEach(l)) && NothingExtra(l, current, content) {
      NothingExtraFits(l, current, content);
    }
  }

  lemma {:induction false} OneRevisionIsCurrent(l: seq<Source>, current: Fields)
    requires OneRevisionEach(l)
    requires forall name | name in current :: exists s :: s in l && s.name == name && s.revision == current[name]
    ensures forall name | name in current :: name in CurrentRevisions(l) && CurrentRevisions(l)[name] == current[name]
  {
    forall name | name in current ensures name in CurrentRevisions(l) && CurrentRevisions(l)[name] == current[name] {
      var s :| s in l && s.name == name && s.revision == current[name];
      RevisionIsCurrent(l, s);
    }
  }

  lemma {:induction false} NothingLeftIsNothingExtra(l: seq<Source>, sources: seq<Source>,
      content: (string, string) -> Fields)
    requires Consistent(l, content)
    requires forall name | name in CurrentRevisions(sources) ::
               name in CurrentRevisions(l) && CurrentRevisions(l)[name] == CurrentRevisions(sources)[name]
    ensures NothingLeft(l, sources) <==> NothingExtra(l, CurrentRevisions(sources), content)
  {
    forall s | s in l && s.name in CurrentRevisions(sources)
      ensures s.data == content(s.name, CurrentRevisions(sources)[s.name])
    {
      RevisionIsCurrent(l, s);
    }
    if NothingExtra(l, CurrentRevisions(sources), content) {
      forall s | s in l ensures s.name in CurrentRevisions(sources) || s.data == map[] {
        if s.data != map[] {
          assert s.data.Keys != {};
          var k :| k in s.data;
        }
      }
    }
  }

  // ---------- where the shortcut goes wrong ----------

  lemma {:induction false} MergedContains(l: seq<Source>, s: Source, p: string)
    requires s in l && p in Prefixed(s)
    ensures p in MergedData(l)
  {
    var front, last := l[..|l| - 1], l[|l| - 1];
    assert l == front + [last];
    if s != last {
      MergedContains(front, s, p);
    }
  }

  lemma TwoPartsMeanNoDash(s: Source)
    requires |Split(Entry(s), EQUAL_SIGN)| == 2
    ensures Free(s.name, EQUAL_SIGN)
  {
    var parts := Split(Entry(s), EQUAL_SIGN);
    JoinSplit(Entry(s), EQUAL_SIGN);
    assert Entry(s) == parts[0] + [EQUAL_SIGN] + parts[1];
    assert Free(parts[0], EQUAL_SIGN) && Free(parts[1], EQUAL_SIGN);
    assert forall i | 0 <= i < |Entry(s)| && i != |parts[0]| :: Entry(s)[i] != EQUAL_SIGN;
    assert Entry(s)[|s.name|] == EQUAL_SIGN;
    forall i | 0 <= i < |s.name| ensures s.name[i] != EQUAL_SIGN {
      assert s.name[i] == Entry(s)[i];
    }
  }

  lemma {:induction false} StopsAt(g: seq<Source>, bad: Source, rest: seq<Source>)
    requires PlainNames(g) && !SeparatorFree(bad.name) && Stops(bad)
    ensures StopsAtFirst(g + [bad] + rest) && PlainPrefix(g + [bad] + rest) == g
  {
    var l := g + [bad] + rest;
    if g != [] {
      assert l[0] == g[0] && l[1..] == g[1..] + [bad] + rest;
      StopsAt(g[1..], bad, rest);
    }
  }

  /** A list with a source at which reading stops reads back as what comes before it. */
  lemma {:induction false} ParseStops(g: seq<Source>, bad: Source, rest: seq<Source>)
    requires PlainNames(g) && !SeparatorFree(bad.name) && Stops(bad) && PlainRevisions(g + [bad] + rest)
    ensures Parsed(Printed(g + [bad] + rest)) == CurrentRevisions(g)
  {
    StopsAt(g, bad, rest);
    ReadBack(g + [bad] + rest);
    LegibleIsPrefix(g + [bad] + rest);
  }

  /** No listed name is a dotted prefix of this one, as `a` is of `a.b`. */
  predicate Unshadowed(bad: Source, g: seq<Source>) {
    forall s | s in g :: !(s.name + "." <= bad.name)
  }

  lemma DottedPrefix(a: string, x: string, b: string, y: string)
    requires a + "." + x == b + "." + y
    ensures a == b || a + "." <= b || b + "." <= a
  {
    var p := a + "." + x;
    assert p[..|a| + 1] == a + "." && p[..|b| + 1] == b + "." && p[..|a|] == a && p[..|b|] == b;
    if |a| < |b| {
      assert b[..|a| + 1] == p[..|a| + 1];
    } else if |b| < |a| {
      assert a[..|b| + 1] == p[..|b| + 1];
    }
  }

  lemma DottedIsNotFree(a: string, b: string)
    requires b + "." <= a
    ensures !Free(a, COMMA_SIGN)
  {
    assert a[|b|] == (b + ".")[|b|];
  }

  lemma UnshadowedKeys(bad: Source, s: Source)
    requires SeparatorFree(s.name) && !SeparatorFree(bad.name) && !(s.name + "." <= bad.name)
    ensures Prefixed(s).Keys !! Prefixed(bad).Keys
  {
    forall p | p in Prefixed(s) ensures p !in Prefixed(bad) {
      var j :| j in s.data && p == DataKey(s, j);
      if p in Prefixed(bad) {
        var k :| k in bad.data && p == DataKey(bad, k);
        DottedPrefix(s.name, j, bad.name, k);
        DottedIsNotFree(s.name, bad.name);
      }
    }
  }

  /** With a dash or a dot in a source name the cache goes stale: after a merge that includes such a source, the
      printed revisions parse to those of the sources listed before it only; so once it and everything after it
      are removed, the merge is skipped although its certificates are still in the merged map. */
  lemma {:induction false} DashedNameGoesStale(o: Obj, g: seq<Source>, bad: Source, rest: seq<Source>, k: string)
    requires IsMergeOf(o, g + [bad] + rest)
    requires PlainNames(g) && !SeparatorFree(bad.name) && Stops(bad) && PlainRevisions(g + [bad] + rest)
    requires k in bad.data && Unshadowed(bad, g)
    ensures CachedRevisions(o) == CurrentRevisions(g)
    ensures DataKey(bad, k) in o.spec && DataKey(bad, k) !in MergedData(g)
  {
    ParseStops(g, bad, rest);
    assert DataKey(bad, k) in DataKeys(bad);
    MergedContains(g + [bad] + rest, bad, DataKey(bad, k));
    if DataKey(bad, k) in MergedData(g) {
      MergedOrigin(g, DataKey(bad, k));
      var s :| s in g && DataKey(bad, k) in Prefixed(s);
      UnshadowedKeys(bad, s);
    }
  }

  /** Torn reads: if a name was merged at two revisions, any next sources whose current revisions are the last
      ones listed are taken for merged, and that is right if and only if no key of an older revision has gone
      since. */
  lemma {:induction false} TornReadGoesStale(o: Obj, l: seq<Source>, sources: seq<Source>,
      content: (string, string) -> Fields)
    requires IsMergeOf(o, l) && Determined(l, content) && PlainNames(l) && Determined(sources, content)
    requires CurrentRevisions(sources) == CurrentRevisions(l)
    ensures CachedRevisions(o) == CurrentRevisions(sources)
    ensures o.spec == MergedData(Latest(sources)) <==> NothingExtra(l, CurrentRevisions(l), content)
  {
    PrintParse(l);
    SkipIsRight(o, l, sources, content);
  }

  /** Otherwise such a key stays in the merged map. */
  lemma {:induction false} TornKeyStays(o: Obj, l: seq<Source>, sources: seq<Source>,
      content: (string, string) -> Fields, s: Source, k: string)
    requires IsMergeOf(o, l) && Determined(l, content) && PlainNames(l) && Determined(sources, content)
    requires CurrentRevisions(sources) == CurrentRevisions(l)
    requires s in l && k in s.data && Due(CurrentRevisions(l), content, s.name, k).None?
    ensures CachedRevisions(o) == CurrentRevisions(sources)
    ensures DataKey(s, k) in o.spec && DataKey(s, k) !in MergedData(Latest(sources))
  {
    PrintParse(l);
    SkippedIsPrefix(o, l, sources, content);
    LatestIsConsistent(sources, content);
    ConsistentValue(Latest(sources), content, s.name, k);
    LastValueIsMerged(Latest(sources), s.name, k);
    LastValueIsMerged(l, s.name, k);
  }

  // ---------- the sync ----------

  function MergedSpec(l: seq<Source>, labels: Fields): Obj {
    Obj(MergedData(l), labels, map[REVISIONS := Printed(l)], None, [], false, 0)
  }

  /** One sync of the merged map from the sources just read. */
  function Merging(w: World, crDeleting: bool, sources: seq<Source>, labels: Fields): (r: (World, bool, Option<Error>))
    ensures r.0.rely == w.rely
  {
    var k := MergedKey(w.rely.cr);
    var (w1, found) := CallGet(w, k, true);
    if found.Ok? && CachedRevisions(found.obj) == CurrentRevisions(sources) then (w1, true, None)
    else if found.Failed? && found.error != NotFound then (w1, false, Some(found.error))
    else
      var o := Sync.Syncing(w1, crDeleting, k, MergedSpec(sources, labels), Sync.LabelsEqual);
      (o.w, o.done, o.error)
  }

  /** Only this function writes the merged map, and every copy of it is a merge of some sources. */
  ghost predicate CaInv(w: World, content: (string, string) -> Fields) {
    && Coherent(w.store)
    && MergedKey(w.rely.cr) in w.rely.owned
    && AllCopies(w.store, MergedKey(w.rely.cr), HonestFor(content))
  }

  predicate HasMerge(m: map<Key, Obj>, k: Key, sources: seq<Source>) {
    k in m && m[k].spec == MergedData(sources)
  }

  /** The merged map holds the merge of the sources: on the server, or as the cache shows it. */
  predicate Agrees(s: Store, k: Key, sources: seq<Source>) {
    HasMerge(s.objects, k, sources) || HasMerge(s.cache, k, sources)
  }

  lemma ReadKeepsCa(w: World, content: (string, string) -> Fields)
    requires CaInv(w, content)
    ensures var (w1, found) := CallGet(w, MergedKey(w.rely.cr), true);
            && CaInv(w1, content)
            && (found.Ok? ==> Known(w1.store, MergedKey(w.rely.cr), found.obj) && Honest(found.obj, content))
  {
    ReadStep(w, MergedKey(w.rely.cr), true);
    SettleKeepsOwned(w, MergedKey(w.rely.cr), HonestFor(content));
  }

  lemma CreateKeepsCa(w: World, content: (string, string) -> Fields, o: Obj)
    requires CaInv(w, content) && Honest(o, content)
    ensures var (w1, reply) := CallCreate(w, MergedKey(w.rely.cr), o);
            && CaInv(w1, content)
            && (reply.Ok? ==>
                  && reply.obj.spec == o.spec
                  && Lookup(w1.store.objects, MergedKey(w.rely.cr)) == Some(reply.obj))
  {
    var k := MergedKey(w.rely.cr);
    CreateStep(w, k, o);
    SettleKeepsOwned(w, k, HonestFor(content));
    SameContentIsHonest(o, o.(deleting := false, version := Settle(w).0.store.clock + 1), content);
  }

  lemma InstalledKeepsCa(s: Store, k: Key, o: Obj, next: Obj, content: (string, string) -> Fields)
    requires AllCopies(s, k, HonestFor(content)) && Honest(o, content)
    requires next.spec == o.spec && next.annotations == o.annotations
    ensures AllCopies(Install(s, k, next), k, HonestFor(content))
  {
    SameContentIsHonest(o, next.(version := s.clock + 1), content);
  }

  lemma UpdatedKeepsCa(s: Store, k: Key, o: Obj, content: (string, string) -> Fields)
    requires AllCopies(s, k, HonestFor(content)) && Honest(o, content)
    ensures AllCopies(Updated(s, k, o).0, k, HonestFor(content))
  {
    if Updated(s, k, o).1.Ok? {
      var next := o.(deleting := s.objects[k].deleting);
      InstalledKeepsCa(s, k, o, next, content);
      assert AllCopies(Vanish(s, k), k, HonestFor(content));
    }
  }

  lemma UpdateKeepsCa(w: World, content: (string, string) -> Fields, o: Obj)
    requires CaInv(w, content) && Honest(o, content)
    ensures CaInv(CallUpdate(w, MergedKey(w.rely.cr), o).0, content)
  {
    var k := MergedKey(w.rely.cr);
    UpdateStep(w, k, o);
    SettleKeepsOwned(w, k, HonestFor(content));
    UpdatedKeepsCa(Settle(w).0.store, k, o, content);
  }

  lemma SameContentIsHonest(o: Obj, x: Obj, content: (string, string) -> Fields)
    requires Honest(o, content) && x.spec == o.spec && x.annotations == o.annotations
    ensures Honest(x, content)
  {
    var l: seq<Source> :| IsMergeOf(o, l) && Determined(l, content);
    assert IsMergeOf(x, l);
  }

  lemma CreatingKeepsCa(w: World, content: (string, string) -> Fields, crDeleting: bool, sources: seq<Source>,
      labels: Fields)
    requires CaInv(w, content) && Determined(sources, content)
    ensures var k := MergedKey(w.rely.cr);
            var o := Sync.Creating(w, crDeleting, k, MergedSpec(sources, labels), false);
            && CaInv(o.w, content)
            && (o.done && !crDeleting ==> k in o.w.store.objects && o.w.store.objects[k].spec == MergedData(sources))
  {
    var bp := MergedSpec(sources, labels).(owner := Some(w.rely.cr));
    assert IsMergeOf(bp, sources);
    CreateKeepsCa(w, content, bp);
  }

  lemma PatchingKeepsCa(w: World, content: (string, string) -> Fields, actual: Obj, sources: seq<Source>,
      labels: Fields)
    requires CaInv(w, content) && Determined(sources, content)
    ensures var merged := Sync.Overlay(actual, MergedSpec(sources, labels));
            var o := Sync.Patching(w, MergedKey(w.rely.cr), merged, actual.version);
            CaInv(o.w, content) && !o.done
  {
    var next := Sync.Overlay(actual, MergedSpec(sources, labels)).(owner := Some(w.rely.cr), version := actual.version);
    assert IsMergeOf(next, sources);
    UpdateKeepsCa(w, content, next);
  }

  /** This copy is the merge of a list that reads back as the current sources. */
  ghost predicate PassesFor(o: Obj, l: seq<Source>, sources: seq<Source>) {
    IsMergeOf(o, l) && PlainNames(sources) && CurrentRevisions(Legible(l)) == CurrentRevisions(sources)
  }

  /** A list with dashes or torn reads is behind this copy, and reads back as the current sources. */
  ghost predicate Misleads(o: Obj, sources: seq<Source>, content: (string, string) -> Fields) {
    exists l: seq<Source> ::
      PassesFor(o, l, sources) && Determined(l, content) && !(PlainNames(l) && OneRevisionEach(l))
  }

  /** What a sync leaves when it is done: the right data, and on the server if the cache could not lag. */
  predicate DoneWell(w: World, w1: World, sources: seq<Source>) {
    var k := MergedKey(w.rely.cr);
    && Agrees(w1.store, k, sources)
    && (w.script == [] || Lookup(w1.store.cache, k) == Lookup(w1.store.objects, k) ==>
        HasMerge(w1.store.objects, k, sources))
  }

  /** What a sync that is done leaves is the merge of this list: of the sources it read, or of a list for which
      they pass in the cached copy. */
  ghost predicate Leaves(w: World, w1: World, l: seq<Source>, sources: seq<Source>) {
    var k := MergedKey(w.rely.cr);
    && DoneWell(w, w1, l)
    && (l == sources || (k in w1.store.cache && PassesFor(w1.store.cache[k], l, sources)))
  }

  /** The one way it can go wrong: the cached copy misleads. */
  ghost predicate Misled(w1: World, sources: seq<Source>, content: (string, string) -> Fields) {
    var k := MergedKey(w1.rely.cr);
    k in w1.store.cache && Misleads(w1.store.cache[k], sources, content)
  }

  lemma UpdatingKeepsCa(w: World, content: (string, string) -> Fields, actual: Obj, sources: seq<Source>,
      labels: Fields)
    requires CaInv(w, content) && Determined(sources, content)
    ensures var bp := MergedSpec(sources, labels);
            CaInv(Sync.Updating(w, false, MergedKey(w.rely.cr), actual, bp, Sync.LabelsEqual).w, content)
  {
    PatchingKeepsCa(w, content, actual, sources, labels);
  }

  lemma SyncingKeepsCa(w: World, content: (string, string) -> Fields, sources: seq<Source>, labels: Fields)
    requires CaInv(w, content) && Determined(sources, content)
    ensures var bp := MergedSpec(sources, labels);
            CaInv(Sync.Syncing(w, false, MergedKey(w.rely.cr), bp, Sync.LabelsEqual).w, content)
  {
    ReadKeepsCa(w, content);
    var (w1, found) := CallGet(w, MergedKey(w.rely.cr), true);
    if found.Ok? {
      UpdatingKeepsCa(w1, content, found.obj, sources, labels);
    } else {
      CreatingKeepsCa(w1, content, false, sources, labels);
    }
  }

  lemma CreatedIsStored(w: World, k: Key, bp: Obj)
    ensures var o := Sync.Creating(w, false, k, bp, false);
            o.done ==> k in o.w.store.objects && o.w.store.objects[k].spec == bp.spec
  {
  }

  lemma UpdatedIsUpToDate(w: World, k: Key, actual: Obj, bp: Obj)
    requires !Sync.IsUpdateUsingDeleteCreate(k.kind)
    ensures var o := Sync.Updating(w, false, k, actual, bp, Sync.LabelsEqual);
            o.done ==> o.w == w && actual.spec == bp.spec
  {
  }

  /** A sync that is done has found the blueprint's data in the cache or stored it. */
  lemma {:induction false} SyncedHasMerge(w: World, sources: seq<Source>, labels: Fields)
    ensures var o := Sync.Syncing(w, false, MergedKey(w.rely.cr), MergedSpec(sources, labels), Sync.LabelsEqual);
            o.done ==> DoneWell(w, o.w, sources)
  {
    var k := MergedKey(w.rely.cr);
    var bp := MergedSpec(sources, labels);
    var (w1, found) := CallGet(w, k, true);
    if found == Failed(NotFound) {
      CreatedIsStored(w1, k, bp);
    } else if found.Ok? {
      UpdatedIsUpToDate(w1, k, found.obj, bp);
    }
  }

  /** If a current source has a separator in its name, as the one of a default installation has, the merge is
      never skipped, and a sync that reports success leaves the right data, whatever was merged before. */
  lemma {:induction false} UnplainSyncAgrees(w: World, sources: seq<Source>, labels: Fields)
    requires !PlainNames(sources)
    ensures var (w1, done, _) := Merging(w, false, sources, labels); done ==> DoneWell(w, w1, sources)
  {
    var (w1, found) := CallGet(w, MergedKey(w.rely.cr), true);
    if found.Ok? && CachedRevisions(found.obj) == CurrentRevisions(sources) {
      SkipsOnlyIfPlain(found.obj, sources);
    } else {
      SyncedHasMerge(w1, sources, labels);
    }
  }

  /** However stale or torn the reads and whatever else happens: a sync keeps every copy of the merged map
      honest, and if it reports success, the merged map is, on the server or at least as the cache shows it, the
      merge of the sources it read or of a list for which they pass. */
  lemma {:induction false} MergingAgrees(w: World, content: (string, string) -> Fields, crDeleting: bool,
                                         sources: seq<Source>, labels: Fields)
    requires CaInv(w, content) && Determined(sources, content)
    ensures var (w1, done, _) := Merging(w, crDeleting, sources, labels);
            && CaInv(w1, content)
            && (!crDeleting && done ==> exists l :: Leaves(w, w1, l, sources) && Determined(l, content))
  {
    ReadKeepsCa(w, content);
    var (w1, found) := CallGet(w, MergedKey(w.rely.cr), true);
    if found.Ok? && CachedRevisions(found.obj) == CurrentRevisions(sources) {
      var l := SkippingAgrees(found.obj, sources, content);
      assert Leaves(w, w1, l, sources);
    } else if !crDeleting {
      SyncingKeepsCa(w1, content, sources, labels);
      SyncedHasMerge(w1, sources, labels);
      var (w2, done, _) := Merging(w, crDeleting, sources, labels);
      assert done ==> Leaves(w, w2, sources, sources);
    }
  }

  lemma {:induction false} SkippingAgrees(o: Obj, sources: seq<Source>, content: (string, string) -> Fields)
    returns (l: seq<Source>)
    requires Honest(o, content) && CachedRevisions(o) == CurrentRevisions(sources)
    ensures PassesFor(o, l, sources) && Determined(l, content)
  {
    l :| IsMergeOf(o, l) && Determined(l, content);
    SkipsOnlyIfPlain(o, sources);
    SkipsIfLegible(o, l, sources);
  }

  /** Exactly when that is right, for names without dots: the list fits the current revisions. */
  lemma {:induction false} LeavesRightIfFits(w: World, w1: World, l: seq<Source>, sources: seq<Source>,
      content: (string, string) -> Fields)
    requires Leaves(w, w1, l, sources) && Determined(l, content) && Determined(sources, content)
    requires DotFree(l) && DotFree(sources)
    ensures MergedData(l) == MergedData(Latest(sources)) <==> Fits(l, CurrentRevisions(sources), content)
  {
    if l == sources {
      MergeIsRight(l, sources, content);
      forall name | name in CurrentRevisions(sources)
        ensures exists s :: s in l && s.name == name && s.revision == CurrentRevisions(sources)[name]
      {
        CurrentIsListed(sources, name);
      }
    } else {
      var o := w1.store.cache[MergedKey(w.rely.cr)];
      SkipsIfLegible(o, l, sources);
      SkipIsRight(o, l, sources, content);
    }
  }

  /** In particular, without torn reads now, it is right unless the cached copy misleads. */
  lemma {:induction false} LeavesRightUnlessMisled(w: World, w1: World, l: seq<Source>, sources: seq<Source>,
      content: (string, string) -> Fields)
    requires Leaves(w, w1, l, sources) && Determined(l, content) && Consistent(sources, content)
    requires w1.rely == w.rely
    ensures DoneWell(w, w1, sources) || Misled(w1, sources, content)
  {
    if l != sources && PlainNames(l) && OneRevisionEach(l) {
      var o := w1.store.cache[MergedKey(w.rely.cr)];
      SkipsIfLegible(o, l, sources);
      ShortcutIsSound(o, l, sources, content);
    }
  }

  /** One reconcile's worth of input: the sources as listed and read, whenever that was. */
  datatype Call = Call(sources: seq<Source>, labels: Fields, crDeleting: bool)

  function Run(w: World, calls: seq<Call>): (r: World)
    ensures r.rely == w.rely
    decreases |calls|
  {
    if calls == [] then w
    else
      var last := calls[|calls| - 1];
      Merging(Run(w, calls[..|calls| - 1]), last.crDeleting, last.sources, last.labels).0
  }

  lemma {:induction false} RunKeepsCa(w: World, content: (string, string) -> Fields, calls: seq<Call>)
    requires CaInv(w, content) && forall c | c in calls :: Determined(c.sources, content)
    ensures CaInv(Run(w, calls), content)
    decreases |calls|
  {
    if calls != [] {
      var last := calls[|calls| - 1];
      RunKeepsCa(w, content, calls[..|calls| - 1]);
      assert last in calls;
      MergingAgrees(Run(w, calls[..|calls| - 1]), content, last.crDeleting, last.sources, last.labels);
    }
  }

  /** Cache agreement over every run: after any additions, changes and removals of sources of any names, any torn
      reads and any syncs, a sync that reports success leaves the merge of a list (on the server if the cache
      shows what is stored, or cannot lag, and otherwise at least in the cache), which is the list it read or one
      for which that passes; for names without dots, this merge is right if and only if the list fits the current
      revisions. Without torn reads now, it is right unless the cached copy misleads, and it never does while a
      current source has a separator in its name. */
  lemma {:induction false} EverySyncAgrees(w: World, content: (string, string) -> Fields, calls: seq<Call>, next: Call)
    requires CaInv(w, content) && Determined(next.sources, content) && !next.crDeleting
    requires forall c | c in calls :: Determined(c.sources, content)
    ensures var v := Run(w, calls);
            var (w1, done, _) := Merging(v, false, next.sources, next.labels);
            && (done ==> exists l :: Leaves(v, w1, l, next.sources) && Determined(l, content))
            && (forall l | Leaves(v, w1, l, next.sources) && Determined(l, content) && DotFree(l + next.sources) ::
                  MergedData(l) == MergedData(Latest(next.sources))
                  <==> Fits(l, CurrentRevisions(next.sources), content))
            && (done && OneRevisionEach(next.sources) ==>
                  DoneWell(v, w1, next.sources) || Misled(w1, next.sources, content))
            && (done && !PlainNames(next.sources) ==> DoneWell(v, w1, next.sources))
  {
    var v := Run(w, calls);
    RunKeepsCa(w, content, calls);
    MergingAgrees(v, content, false, next.sources, next.labels);
    var (w1, done, _) := Merging(v, false, next.sources, next.labels);
    forall l | Leaves(v, w1, l, next.sources) && Determined(l, content) && DotFree(l + next.sources)
      ensures MergedData(l) == MergedData(Latest(next.sources)) <==> Fits(l, CurrentRevisions(next.sources), content)
    {
      assert forall s | s in l || s in next.sources :: s in l + next.sources;
      LeavesRightIfFits(v, w1, l, next.sources, content);
    }
    if done && OneRevisionEach(next.sources) {
      var l :| Leaves(v, w1, l, next.sources) && Determined(l, content);
      LeavesRightUnlessMisled(v, w1, l, next.sources, content);
    }
  }

  // ---------- every certificate arrives ----------

  /** The data are those of the listed sources and the named one, if there is one, each key under the name of its
      source, and nothing else. */
  ghost predicate HoldsCerts(data: Fields, listed: seq<Source>, named: Option<Source>) {
    && (forall s, k | (s in listed || named == Some(s)) && k in s.data ::
          s.name + "." + k in data && data[s.name + "." + k] == s.data[k])
    && (forall p | p in data ::
          exists s, k :: (s in listed || named == Some(s)) && k in s.data && p == s.name + "." + k)
  }

  ghost predicate CertsAt(m: map<Key, Obj>, k: Key, listed: seq<Source>, named: Option<Source>) {
    k in m && HoldsCerts(m[k].spec, listed, named)
  }

  /** They are on the server, or at least as the cache shows it; and on the server if the cache could not lag. */
  ghost predicate CertsArrive(w: World, w1: World, listed: seq<Source>, named: Option<Source>) {
    var k := MergedKey(w.rely.cr);
    && (CertsAt(w1.store.objects, k, listed, named) || CertsAt(w1.store.cache, k, listed, named))
    && (w.script == [] || Lookup(w1.store.cache, k) == Lookup(w1.store.objects, k) ==>
          CertsAt(w1.store.objects, k, listed, named))
  }

  function Both(listed: seq<Source>, named: Option<Source>): (all: seq<Source>)
    ensures forall s :: s in all <==> s in listed || named == Some(s)
  {
    if named.Some? then listed + [named.value] else listed
  }

  lemma {:induction false} MergeHoldsCerts(listed: seq<Source>, named: Option<Source>,
      content: (string, string) -> Fields)
    requires Consistent(Both(listed, named), content) && DotFree(Both(listed, named))
    ensures HoldsCerts(MergedData(Both(listed, named)), listed, named)
  {
    var all := Both(listed, named);
    forall s, k | (s in listed || named == Some(s)) && k in s.data
      ensures s.name + "." + k in MergedData(all) && MergedData(all)[s.name + "." + k] == s.data[k]
    {
      ConsistentValue(all, content, s.name, k);
      RevisionIsCurrent(all, s);
      LastValueIsMerged(all, s.name, k);
    }
    forall p | p in MergedData(all)
      ensures exists s, k :: (s in listed || named == Some(s)) && k in s.data && p == s.name + "." + k
    {
      MergedOrigin(all, p);
      var s :| s in all && p in Prefixed(s);
      var k :| k in s.data && p == DataKey(s, k);
      assert p == s.name + "." + k;
    }
  }

  /** What a sync is for: if it reports success, every certificate that is listed or named is in the merged map, under
      the name of its source, and no other, unless the cached copy misleads; which it never does while a source has a
      separator in its name. (For names without dots, each read at one revision.) */
  lemma {:induction false} CertsAreMerged(w: World, content: (string, string) -> Fields, listed: seq<Source>,
      named: Option<Source>, labels: Fields)
    requires CaInv(w, content)
    requires Consistent(Both(listed, named), content) && DotFree(Both(listed, named))
    ensures var all := if named.Some? then listed + [named.value] else listed;
            var (w1, done, _) := Merging(w, false, all, labels);
            && (done ==> CertsArrive(w, w1, listed, named) || Misled(w1, all, content))
            && (done && !PlainNames(all) ==> CertsArrive(w, w1, listed, named))
  {
    var all := Both(listed, named);
    EverySyncAgrees(w, content, [], Call(all, labels, false));
    var w1 := Merging(w, false, all, labels).0;
    if DoneWell(w, w1, all) {
      MergeArrives(w, w1, listed, named, content);
    }
  }

  lemma {:induction false} MergeArrives(w: World, w1: World, listed: seq<Source>, named: Option<Source>,
      content: (string, string) -> Fields)
    requires Consistent(Both(listed, named), content) && DotFree(Both(listed, named))
    requires DoneWell(w, w1, Both(listed, named))
    ensures CertsArrive(w, w1, listed, named)
  {
    MergeHoldsCerts(listed, named, content);
  }

  /** Unless the merge is skipped, success also means that the labels are those given: of the cached copy, or stored. */
  lemma {:induction false} LabelsArrive(w: World, sources: seq<Source>, labels: Fields)
    requires var found := CallGet(w, MergedKey(w.rely.cr), true).1;
             found.Ok? ==> CachedRevisions(found.obj) != CurrentRevisions(sources)
    ensures var k := MergedKey(w.rely.cr);
            var (w1, done, _) := Merging(w, false, sources, labels);
            done ==> (k in w1.store.cache && w1.store.cache[k].labels == labels)
                     || (k in w1.store.objects && forall l | l in labels ::
                           l in w1.store.objects[k].labels && w1.store.objects[k].labels[l] == labels[l])
  {
    var w1 := CallGet(w, MergedKey(w.rely.cr), true).0;
    Sync.DoneIsAsAsked(w1, MergedKey(w.rely.cr), MergedSpec(sources, labels), Sync.LabelsEqual);
  }

  /** The default source has a dash in its name, so while it is listed the merge is never skipped. */
  lemma {:induction false} DefaultIsNeverSkipped(w: World, sources: seq<Source>, labels: Fields)
    requires exists s :: s in sources && s.name == "ca-certs"
    ensures !PlainNames(sources)
    ensures var (w1, done, _) := Merging(w, false, sources, labels); done ==> DoneWell(w, w1, sources)
  {
    assert "ca-certs"[2] == '-';
    UnplainSyncAgrees(w, sources, labels);
  }

  lemma MergingIs(w: World, sources: seq<Source>, labels: Fields)
    requires w.script == []
    ensures var k := MergedKey(w.rely.cr);
            var o := Sync.Syncing(Sync.Caught(w), false, k, MergedSpec(sources, labels), Sync.LabelsEqual);
            Merging(w, false, sources, labels)
            == if k in w.store.objects && CachedRevisions(w.store.objects[k]) == CurrentRevisions(sources)
               then (Sync.Caught(w), true, None)
               else (o.w, o.done, o.error)
  {
    var k := MergedKey(w.rely.cr);
    assert CallGet(w, k, true).0 == Sync.Caught(w);
  }

  /** Progress: undisturbed, the second sync of the same sources is done at the latest, if the labels of the
      merged map can be settled on. */
  lemma {:induction false} MergingSettles(w: World, sources: seq<Source>, labels: Fields)
    requires var k := MergedKey(w.rely.cr);
             && Sync.Ready(w, k, MergedSpec(sources, labels))
             && Sync.CanSettle(w, k, MergedSpec(sources, labels), Sync.LabelsEqual)
    ensures var w1 := Merging(w, false, sources, labels).0;
            Merging(w1, false, sources, labels).1
  {
    var k, bp := MergedKey(w.rely.cr), MergedSpec(sources, labels);
    var v := Sync.Caught(w);
    MergingIs(w, sources, labels);
    if k in w.store.objects && CachedRevisions(w.store.objects[k]) == CurrentRevisions(sources) {
      MergingIs(v, sources, labels);
    } else {
      var w1 := Sync.Syncing(v, false, k, bp, Sync.LabelsEqual).w;
      Sync.Round(v, k, bp, Sync.LabelsEqual);
      Sync.SettlesAfterOneRound(v, w1, k, bp, Sync.LabelsEqual);
      MergingIs(w1, sources, labels);
      SyncSeesObjects(w1, k, bp);
    }
  }

  lemma SyncSeesObjects(w: World, k: Key, bp: Obj)
    requires w.script == []
    ensures Sync.Syncing(w, false, k, bp, Sync.LabelsEqual)
        == Sync.Syncing(Sync.Caught(w), false, k, bp, Sync.LabelsEqual)
  {
    assert Settle(w) == Settle(Sync.Caught(w));
  }

  /** Exactly when a lagging cache is harmless, for every script: what is stored after a sync is right if and only
      if there is a merged map and the list behind it, whatever the cache shows, fits and covers the current
      revisions. A sync that skips the merge writes nothing, so it finds or leaves it so. */
  lemma {:induction false} StoredIsRight(w: World, sources: seq<Source>, labels: Fields, l: seq<Source>,
      content: (string, string) -> Fields)
    requires var (w1, _, _) := Merging(w, false, sources, labels);
             MergedKey(w.rely.cr) in w1.store.objects ==> IsMergeOf(w1.store.objects[MergedKey(w.rely.cr)], l)
    requires Determined(l, content) && DotFree(l) && Determined(sources, content) && DotFree(sources)
    ensures var (w1, done, _) := Merging(w, false, sources, labels);
            var k, current := MergedKey(w.rely.cr), CurrentRevisions(sources);
            && (HasMerge(w1.store.objects, k, Latest(sources))
                <==> k in w1.store.objects && Fits(l, current, content) && Covers(l, current, content))
            && (var found := CallGet(w, k, true).1;
                found.Ok? && CachedRevisions(found.obj) == current ==> done && w1 == Settle(w).0)
  {
    MergeIsRight(l, sources, content);
  }

  /** A lagging cache is the limit of this: if the cached copy is of an earlier merge of the very same sources,
      the sync reports success and writes nothing, whatever is stored by now. */
  lemma {:induction false} StaleCachePasses(w: World, sources: seq<Source>, labels: Fields, stale: Obj)
    requires w.script == [Pause] && PlainNames(sources) && PlainRevisions(sources)
    requires MergedKey(w.rely.cr) in w.store.cache && w.store.cache[MergedKey(w.rely.cr)] == stale
    requires IsMergeOf(stale, sources)
    ensures var (w1, done, _) := Merging(w, false, sources, labels);
            done && w1.store == w.store && w1.writes == w.writes
  {
    PrintParse(sources);
    assert Settle(w) == (w.(script := w.script[1..]), NoFault);
  }

  // ---------- step by step ----------

  method ParseRevisions(revisions: string) returns (cached: Fields)
    ensures cached == Parsed(revisions)
  {
    cached := map[];
    var entries := Split(revisions, COMMA_SIGN);
    for i := 0 to |entries|
      invariant cached + ParsedEntries(entries[i..]) == ParsedEntries(entries)
    {
      var nameRevision := Split(entries[i], EQUAL_SIGN);
      assert entries[i..][1..] == entries[i + 1..];
      if |nameRevision| != 2 {
        break;
      }
      ghost var rest := ParsedEntries(entries[i + 1..]);
      assert cached[nameRevision[0] := nameRevision[1]] + rest
          == cached + (map[nameRevision[0] := nameRevision[1]] + rest);
      cached := cached[nameRevision[0] := nameRevision[1]];
    }
  }

  method CollectRevisions(sources: seq<Source>) returns (current: Fields)
    ensures current == CurrentRevisions(sources)
  {
    current := map[];
    for i := 0 to |sources|
      invariant current == CurrentRevisions(sources[..i])
    {
      assert sources[..i + 1][..i] == sources[..i];
      current := current[sources[i].name := sources[i].revision];
    }
    assert sources[..|sources|] == sources;
  }

  lemma PrefixedInsert(s: Source, k: string, v: string)
    ensures Prefixed(s.(data := s.data[k := v])) == Prefixed(s)[DataKey(s, k) := v]
  {
    var t := s.(data := s.data[k := v]);
    forall j ensures DataKey(s, j)[|s.name| + 1..] == j && DataKey(t, j) == DataKey(s, j) {
    }
    forall p ensures p in DataKeys(t) <==> p in DataKeys(s) || p == DataKey(s, k) {
      if p in DataKeys(s) {
        var j :| j in s.data && p == DataKey(s, j);
        assert j in t.data && p == DataKey(t, j);
      }
      if p == DataKey(s, k) {
        assert k in t.data && p == DataKey(t, k);
      }
    }
    forall p | p in DataKeys(t) ensures Prefixed(t)[p] == Prefixed(s)[DataKey(s, k) := v][p] {
      var j :| j in t.data && p == DataKey(t, j);
      assert p[|s.name| + 1..] == j;
      if j != k {
        assert p == DataKey(s, j) && p != DataKey(s, k);
      }
    }
  }

  function Copied(s: Source, rest: set<string>): Source {
    s.(data := s.data - rest)
  }

  lemma CopyOne(base: Fields, s: Source, rest: set<string>, k: string)
    requires k in rest && k in s.data
    ensures base + Prefixed(Copied(s, rest - {k})) == (base + Prefixed(Copied(s, rest)))[DataKey(s, k) := s.data[k]]
  {
    var before := Copied(s, rest);
    UncopyOne(s.data, rest, k);
    assert Copied(s, rest - {k}) == before.(data := before.data[k := s.data[k]]);
    PrefixedInsert(before, k, s.data[k]);
    AddThenSet(base, Prefixed(before), DataKey(s, k), s.data[k]);
  }

  lemma UncopyOne(m: Fields, rest: set<string>, k: string)
    requires k in rest && k in m
    ensures m - (rest - {k}) == (m - rest)[k := m[k]]
  {
  }

  lemma AddThenSet(base: Fields, m: Fields, k: string, v: string)
    ensures base + m[k := v] == (base + m)[k := v]
  {
  }

  /** Copies the data of one source under its prefixed keys, in any order. */
  method CopyData(base: Fields, s: Source) returns (data: Fields)
    ensures data == base + Prefixed(s)
  {
    data := base;
    var rest := s.data.Keys;
    assert s.data - rest == map[];
    while rest != {}
      invariant rest <= s.data.Keys
      invariant data == base + Prefixed(Copied(s, rest))
      decreases |rest|
    {
      var k :| k in rest;
      CopyOne(base, s, rest, k);
      data := data[DataKey(s, k) := s.data[k]];
      rest := rest - {k};
    }
    assert s.data - {} == s.data;
  }

  lemma MergedSnoc(l: seq<Source>, s: Source)
    ensures MergedData(l + [s]) == MergedData(l) + Prefixed(s)
  {
    assert (l + [s])[..|l|] == l;
  }

  lemma PrintedSnoc(l: seq<Source>, s: Source)
    ensures Printed(l + [s]) == (if Printed(l) == "" then "" else Printed(l) + [COMMA_SIGN]) + Entry(s)
  {
    JoinSnoc(Entries(l), Entry(s), COMMA_SIGN);
    assert Entries(l + [s]) == Entries(l) + [Entry(s)];
    if l != [] {
      assert |Entries(l)[0]| > 0;
    }
  }

  method MergeSources(sources: seq<Source>) returns (data: Fields, revisions: string)
    ensures data == MergedData(sources) && revisions == Printed(sources)
  {
    data, revisions := map[], "";
    for i := 0 to |sources|
      invariant data == MergedData(sources[..i]) && revisions == Printed(sources[..i])
    {
      var cm := sources[i];
      data := CopyData(data, cm);
      MergedSnoc(sources[..i], cm);
      PrintedSnoc(sources[..i], cm);
      assert sources[..i + 1] == sources[..i] + [cm];
      if revisions != "" {
        revisions := revisions + [COMMA_SIGN];
      }
      revisions := revisions + (cm.name + [EQUAL_SIGN] + cm.revision);
    }
    assert sources[..|sources|] == sources;
  }

  method SyncMergedConfigMap(ctx: Deploy.DeployContext, sources: seq<Source>, labels: Fields)
    returns (done: bool, error: Option<Error>)
    modifies ctx`w
    ensures (ctx.w, done, error) == Merging(old(ctx.w), ctx.cr.deleting, sources, labels)
  {
    var merged := ctx.ClientGet(MergedKey(ctx.w.rely.cr), true);
    if merged.Ok? {
      var current := CollectRevisions(sources);
      var cached: Fields := map[];
      if REVISIONS in merged.obj.annotations {
        cached := ParseRevisions(merged.obj.annotations[REVISIONS]);
      }
      if current == cached {
        return true, None;
      }
    } else if merged.error != NotFound {
      return false, Some(merged.error);
    }
    var data, revisions := MergeSources(sources);
    var spec := Obj(data, labels, map[], None, [], false, 0);
    spec := spec.(annotations := spec.annotations[REVISIONS := revisions]);
    var blueprint := new Deploy.Blueprint(MergedKey(ctx.w.rely.cr), spec);
    done, error := ctx.Sync(blueprint, Sync.LabelsEqual);
  }

  /** `listed` holds the labelled config maps, if they can be listed, and `named` the one the custom resource names,
      if it names one and that can be read. */
  method SyncAdditionalCACertsConfigMapToCluster(ctx: Deploy.DeployContext, listed: Option<seq<Source>>,
                                                 named: Option<Option<Source>>, labels: Fields)
    returns (done: bool, error: Option<Error>)
    modifies ctx`w
    ensures listed.None? || named == Some(None) ==> !done && error.Some? && ctx.w == old(ctx.w)
    ensures listed.Some? && named != Some(None) ==>
              var all := if named.Some? then listed.value + [named.value.value] else listed.value;
              (ctx.w, done, error) == Merging(old(ctx.w), ctx.cr.deleting, all, labels)
  {
    if listed.None? {
      return false, Some(Unavailable);
    }
    var sources := listed.value;
    if named.Some? {
      if named.value.None? {
        return false, Some(NotFound);
      }
      sources := sources + [named.value.value];
    }
    done, error := SyncMergedConfigMap(ctx, sources, labels);
  }
}
