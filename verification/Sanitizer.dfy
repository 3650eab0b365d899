/** Screening and bounds for untrusted tool results. */
module Sanitizer {
  import opened Basics

  /** `matches` stands for the injection patterns; `block` raises on a match, otherwise it is redacted. */
  datatype Policy = Policy(maxChars: nat, block: bool, matches: string -> bool)

  const MARKER: string := "[CONTENT " + "REDACTED: " + "possible " + "prompt " + "injection]"
  const MAX_ITEMS: nat := 100
  const MAX_KEY: nat := 100

  predicate Allowed(c: char) {
    c == '\n' || c == '\t' || c as int >= 32
  }

  function Filter(s: string): (r: string)
    ensures |r| <= |s| && forall c <- r :: Allowed(c)
  {
    if s == [] then [] else (if Allowed(s[0]) then [s[0]] else []) + Filter(s[1..])
  }

  function Clip<T>(s: seq<T>, n: nat): seq<T> {
    if |s| > n then s[..n] else s
  }

  function SanitizeText(p: Policy, s: string): Option<string> {
    var normalized := Clip(Filter(s), p.maxChars);
    if !p.matches(normalized) then Some(normalized)
    else if p.block then None
    else Some(MARKER)
  }

  // The length of `json.dumps(value)`: separators ", " and ": ", and every character outside printable
  // ASCII escaped.

  function EscapedWidth(c: char): nat {
    if c in {'\"', '\\', '\n', '\r', '\t', 8 as char, 12 as char} then 2
    else if ' ' <= c <= '~' then 1
    else if c as int > 0xFFFF then 12
    else 6
  }

  function QuotedWidth(s: string): nat {
    if s == [] then 2 else EscapedWidth(s[0]) + QuotedWidth(s[1..])
  }

  function Width(v: Json): nat
    decreases v
  {
    match v
    case Lit(text) => |text|
    case Str(s) => QuotedWidth(s)
    case Arr(items) => 2 + ItemsWidth(items)
    case Obj(entries) => 2 + EntriesWidth(entries)
  }

  function ItemsWidth(items: seq<Json>): nat
    decreases items
  {
    if items == [] then 0 else Width(items[0]) + (if |items| > 1 then 2 else 0) + ItemsWidth(items[1..])
  }

  function EntriesWidth(entries: seq<Entry>): nat
    decreases entries
  {
    if entries == [] then 0
    else QuotedWidth(entries[0].key) + 2 + Width(entries[0].value) + (if |entries| > 1 then 2 else 0)
         + EntriesWidth(entries[1..])
  }

  // A dictionary built entry by entry: a repeated key keeps its place and takes the later value.

  function PutEntry(entries: seq<Entry>, k: string, v: Json): seq<Entry> {
    if entries == [] then [Entry(k, v)]
    else if entries[0].key == k then [Entry(k, v)] + entries[1..]
    else [entries[0]] + PutEntry(entries[1..], k, v)
  }

  function Merge(built: seq<Entry>, entries: seq<Entry>): seq<Entry>
    decreases |entries|
  {
    if entries == [] then built else Merge(PutEntry(built, entries[0].key, entries[0].value), entries[1..])
  }

  /** None stands for the raised `UnsafeContentError`. */
  function Sanitize(p: Policy, v: Json): Option<Json>
    decreases v
  {
    match v
    case Lit(_) => Some(v)
    case Str(s) =>
      (match SanitizeText(p, s) case Some(t) => Some(Str(t)) case None => None)
    case Arr(items) =>
      (match SanitizeItems(p, Clip(items, MAX_ITEMS))
       case Some(done) => Bounded(p, Arr(done))
       case None => None)
    case Obj(entries) =>
      (match SanitizeEntries(p, Clip(entries, MAX_ITEMS))
       case Some(done) => Bounded(p, Obj(Merge([], done)))
       case None => None)
  }

  function Bounded(p: Policy, v: Json): Option<Json> {
    if Width(v) > p.maxChars then None else Some(v)
  }

  function SanitizeItems(p: Policy, items: seq<Json>): Option<seq<Json>>
    decreases items
  {
    if items == [] then Some([]) else
      match (Sanitize(p, items[0]), SanitizeItems(p, items[1..]))
      case (Some(first), Some(rest)) => Some([first] + rest)
      case _ => None
  }

  function SanitizeEntries(p: Policy, entries: seq<Entry>): Option<seq<Entry>>
    decreases entries
  {
    if entries == [] then Some([]) else
      match (Sanitize(p, entries[0].value), SanitizeEntries(p, entries[1..]))
      case (Some(first), Some(rest)) => Some([Entry(Clip(entries[0].key, MAX_KEY), first)] + rest)
      case _ => None
  }

  // What a sanitized value looks like.

  predicate CleanText(p: Policy, s: string) {
    |s| <= p.maxChars && (forall c <- s :: Allowed(c)) && !p.matches(s)
  }

  predicate DistinctKeys(entries: seq<Entry>) {
    forall i, j :: 0 <= i < j < |entries| ==> entries[i].key != entries[j].key
  }

  /** Every string value is bounded, control-free and pattern-free; every list and dictionary, at any depth,
      has at most 100 elements and serialises within the limit; dictionary keys are short and distinct. */
  predicate Clean(p: Policy, v: Json)
    decreases v
  {
    match v
    case Lit(_) => true
    case Str(s) => CleanText(p, s)
    case Arr(items) => |items| <= MAX_ITEMS && Width(v) <= p.maxChars && forall x <- items :: Clean(p, x)
    case Obj(entries) =>
      && |entries| <= MAX_ITEMS && Width(v) <= p.maxChars && DistinctKeys(entries)
      && forall x <- entries :: |x.key| <= MAX_KEY && Clean(p, x.value)
  }

  /** The redaction marker passes its own screening. */
  predicate MarkerFits(p: Policy) {
    |MARKER| <= p.maxChars && !p.matches(MARKER)
  }

  lemma {:induction false} FilterKeepsAllowed(s: string)
    requires forall c <- s :: Allowed(c)
    ensures Filter(s) == s
  {
    if s != [] {
      assert s[0] in s;
      FilterKeepsAllowed(s[1..]);
    }
  }

  lemma MarkerAllowed()
    ensures forall c <- MARKER :: Allowed(c)
  {
    forall c <- MARKER ensures Allowed(c) {
      assert c in "[CONTENT " || c in "REDACTED: " || c in "possible " || c in "prompt " || c in "injection]";
    }
  }

  lemma TextIsClean(p: Policy, s: string)
    requires p.block || MarkerFits(p)
    ensures SanitizeText(p, s).Some? ==> CleanText(p, SanitizeText(p, s).value)
  {
    MarkerAllowed();
  }

  lemma {:induction false} MergeKeys(built: seq<Entry>, k: string, v: Json)
    requires DistinctKeys(built)
    ensures var r := PutEntry(built, k, v);
      && DistinctKeys(r) && |r| <= |built| + 1
      && (forall x <- r :: x in built || x == Entry(k, v))
      && (forall x <- r :: x.key == k || exists y <- built :: y.key == x.key)
    decreases |built|
  {
    if built != [] && built[0].key != k {
      var rest := built[1..];
      MergeKeys(rest, k, v);
      var r := PutEntry(rest, k, v);
      forall x <- r ensures x.key != built[0].key {
        if x.key != k {
          var y :| y in rest && y.key == x.key;
          var j :| 0 <= j < |rest| && rest[j] == y;
          assert built[j + 1] == y;
        }
      }
      forall x <- PutEntry(built, k, v) ensures x.key == k || exists y <- built :: y.key == x.key {
        if x == built[0] { assert x in built; } else {
          assert x in r;
          if x.key != k { var y :| y in rest && y.key == x.key; assert y in built; }
        }
      }
      forall i, j | 0 <= i < j < |[built[0]] + r| ensures ([built[0]] + r)[i].key != ([built[0]] + r)[j].key {
        if i == 0 { assert ([built[0]] + r)[j] in r; }
      }
    }
  }

  lemma {:induction false} MergeClean(p: Policy, built: seq<Entry>, entries: seq<Entry>)
    requires DistinctKeys(built) && |built| + |entries| <= MAX_ITEMS
    requires forall x <- built + entries :: |x.key| <= MAX_KEY && Clean(p, x.value)
    ensures var r := Merge(built, entries);
      && DistinctKeys(r) && |r| <= MAX_ITEMS
      && forall x <- r :: |x.key| <= MAX_KEY && Clean(p, x.value)
    decreases |entries|
  {
    if entries != [] {
      var x := entries[0];
      MergeKeys(built, x.key, x.value);
      assert x in built + entries;
      MergeClean(p, PutEntry(built, x.key, x.value), entries[1..]);
    } else {
      assert built + entries == built;
    }
  }

  lemma {:induction false} PutNew(built: seq<Entry>, k: string, v: Json)
    requires forall x <- built :: x.key != k
    ensures PutEntry(built, k, v) == built + [Entry(k, v)]
  {
    if built != [] {
      PutNew(built[1..], k, v);
    }
  }

  lemma {:induction false} MergeDistinct(built: seq<Entry>, entries: seq<Entry>)
    requires DistinctKeys(built + entries)
    ensures Merge(built, entries) == built + entries
    decreases |entries|
  {
    if entries != [] {
      var all, x := built + entries, entries[0];
      forall y <- built ensures y.key != x.key {
        var i :| 0 <= i < |built| && built[i] == y;
        assert all[i] == y && all[|built|] == x;
      }
      PutNew(built, x.key, x.value);
      assert built + [x] + entries[1..] == all;
      MergeDistinct(built + [x], entries[1..]);
    } else {
      assert built + entries == built;
    }
  }

  /** Whatever is returned is clean, for arbitrarily nested values. */
  lemma {:induction false} ResultIsClean(p: Policy, v: Json)
    requires p.block || MarkerFits(p)
    ensures Sanitize(p, v).Some? ==> Clean(p, Sanitize(p, v).value)
    decreases v
  {
    match v
    case Lit(_) =>
    case Str(s) => TextIsClean(p, s);
    case Arr(items) => ItemsAreClean(p, Clip(items, MAX_ITEMS));
    case Obj(entries) =>
      var some := Clip(entries, MAX_ITEMS);
      EntriesAreClean(p, some);
      if SanitizeEntries(p, some).Some? {
        MergeClean(p, [], SanitizeEntries(p, some).value);
      }
  }

  lemma {:induction false} ItemsAreClean(p: Policy, items: seq<Json>)
    requires p.block || MarkerFits(p)
    ensures var r := SanitizeItems(p, items); r.Some? ==> |r.value| == |items| && forall x <- r.value :: Clean(p, x)
    decreases items
  {
    if items != [] {
      ResultIsClean(p, items[0]);
      ItemsAreClean(p, items[1..]);
    }
  }

  lemma {:induction false} EntriesAreClean(p: Policy, entries: seq<Entry>)
    requires p.block || MarkerFits(p)
    ensures var r := SanitizeEntries(p, entries);
      r.Some? ==> |r.value| == |entries| && forall x <- r.value :: |x.key| <= MAX_KEY && Clean(p, x.value)
    decreases entries
  {
    if entries != [] {
      ResultIsClean(p, entries[0].value);
      EntriesAreClean(p, entries[1..]);
    }
  }

  /** A clean value passes unchanged. */
  lemma {:induction false} CleanIsFixed(p: Policy, v: Json)
    requires Clean(p, v)
    ensures Sanitize(p, v) == Some(v)
    decreases v
  {
    match v
    case Lit(_) =>
    case Str(s) => FilterKeepsAllowed(s);
    case Arr(items) => ItemsFixed(p, items);
    case Obj(entries) =>
      EntriesFixed(p, entries);
      assert [] + entries == entries;
      MergeDistinct([], entries);
  }

  lemma {:induction false} ItemsFixed(p: Policy, items: seq<Json>)
    requires forall x <- items :: Clean(p, x)
    ensures SanitizeItems(p, items) == Some(items)
    decreases items
  {
    if items != [] {
      assert items[0] in items;
      CleanIsFixed(p, items[0]);
      ItemsFixed(p, items[1..]);
      assert items == [items[0]] + items[1..];
    }
  }

  lemma {:induction false} EntriesFixed(p: Policy, entries: seq<Entry>)
    requires forall x <- entries :: |x.key| <= MAX_KEY && Clean(p, x.value)
    ensures SanitizeEntries(p, entries) == Some(entries)
    decreases entries
  {
    if entries != [] {
      assert entries[0] in entries;
      CleanIsFixed(p, entries[0].value);
      EntriesFixed(p, entries[1..]);
      assert entries == [entries[0]] + entries[1..];
    }
  }

  /** The fixed points of the sanitizer are exactly the clean values. */
  lemma FixedIffClean(p: Policy, v: Json)
    requires p.block || MarkerFits(p)
    ensures Sanitize(p, v) == Some(v) <==> Clean(p, v)
  {
    ResultIsClean(p, v);
    if Clean(p, v) { CleanIsFixed(p, v); }
  }

  /** Sanitizing twice is sanitizing once. */
  lemma Idempotent(p: Policy, v: Json)
    requires p.block || MarkerFits(p)
    ensures Sanitize(p, v).Some? ==> Sanitize(p, Sanitize(p, v).value) == Sanitize(p, v)
  {
    ResultIsClean(p, v);
    if Sanitize(p, v).Some? { CleanIsFixed(p, Sanitize(p, v).value); }
  }

  // What is kept of the input.

  lemma {:induction false} ItemsOneByOne(p: Policy, items: seq<Json>)
    ensures var r := SanitizeItems(p, items);
      r.Some? ==> |r.value| == |items| && forall i :: 0 <= i < |items| ==> Sanitize(p, items[i]) == Some(r.value[i])
  {
    if items != [] {
      ItemsOneByOne(p, items[1..]);
    }
  }

  /** A list keeps the sanitized forms of its first 100 elements, in order. */
  lemma ListKept(p: Policy, items: seq<Json>)
    requires Sanitize(p, Arr(items)).Some?
    ensures var r := Sanitize(p, Arr(items)).value;
      && r.Arr? && |r.items| == (if |items| > MAX_ITEMS then MAX_ITEMS else |items|)
      && forall i :: 0 <= i < |r.items| ==> Sanitize(p, items[i]) == Some(r.items[i])
  {
    ItemsOneByOne(p, Clip(items, MAX_ITEMS));
  }

  function Lookup(entries: seq<Entry>, k: string): Option<Json> {
    if entries == [] then None else if entries[0].key == k then Some(entries[0].value) else Lookup(entries[1..], k)
  }

  /** The value of the last entry whose shortened key is `k`. */
  function LastFor(entries: seq<Entry>, k: string): Option<Json> {
    if entries == [] then None
    else if LastFor(entries[1..], k).Some? then LastFor(entries[1..], k)
    else if Clip(entries[0].key, MAX_KEY) == k then Some(entries[0].value)
    else None
  }

  lemma {:induction false} LookupPut(built: seq<Entry>, k: string, v: Json, j: string)
    ensures Lookup(PutEntry(built, k, v), j) == if j == k then Some(v) else Lookup(built, j)
  {
    if built != [] {
      LookupPut(built[1..], k, v, j);
    }
  }

  lemma {:induction false} MergeLookup(p: Policy, built: seq<Entry>, entries: seq<Entry>, k: string)
    requires SanitizeEntries(p, entries).Some?
    ensures var r := Lookup(Merge(built, SanitizeEntries(p, entries).value), k);
      match LastFor(entries, k)
      case Some(v) => Sanitize(p, v).Some? && r == Sanitize(p, v)
      case None => r == Lookup(built, k)
    decreases |entries|
  {
    if entries != [] {
      var e := entries[0];
      var key, v := Clip(e.key, MAX_KEY), Sanitize(p, e.value).value;
      var done := SanitizeEntries(p, entries).value;
      assert done[0] == Entry(key, v) && done[1..] == SanitizeEntries(p, entries[1..]).value;
      LookupPut(built, key, v, k);
      MergeLookup(p, PutEntry(built, key, v), entries[1..], k);
    }
  }

  /** A dictionary keeps, under each shortened key, the sanitized value of the last of its first 100
      entries with that key. */
  lemma DictionaryKept(p: Policy, entries: seq<Entry>, k: string)
    requires Sanitize(p, Obj(entries)).Some?
    ensures var r := Sanitize(p, Obj(entries)).value;
      && r.Obj?
      && Lookup(r.entries, k) == match LastFor(Clip(entries, MAX_ITEMS), k)
                                 case Some(v) => Sanitize(p, v)
                                 case None => None
  {
    MergeLookup(p, [], Clip(entries, MAX_ITEMS), k);
  }

  function KeysOf(entries: seq<Entry>): seq<string> {
    seq(|entries|, i requires 0 <= i < |entries| => entries[i].key)
  }

  function ShortKeys(entries: seq<Entry>): seq<string> {
    seq(|entries|, i requires 0 <= i < |entries| => Clip(entries[i].key, MAX_KEY))
  }

  /** `seen`, and behind it the further elements of `ks`, each where it first occurs. */
  function Distinct(seen: seq<string>, ks: seq<string>): seq<string>
    decreases |ks|
  {
    if ks == [] then seen else Distinct(if ks[0] in seen then seen else seen + [ks[0]], ks[1..])
  }

  lemma {:induction false} PutKeys(built: seq<Entry>, k: string, v: Json)
    ensures KeysOf(PutEntry(built, k, v)) == if k in KeysOf(built) then KeysOf(built) else KeysOf(built) + [k]
  {
    if built != [] {
      PutKeys(built[1..], k, v);
      assert KeysOf(built) == [built[0].key] + KeysOf(built[1..]);
      assert built[0].key != k ==>
        KeysOf(PutEntry(built, k, v)) == [built[0].key] + KeysOf(PutEntry(built[1..], k, v));
    }
  }

  lemma {:induction false} MergeOrder(built: seq<Entry>, entries: seq<Entry>)
    ensures KeysOf(Merge(built, entries)) == Distinct(KeysOf(built), KeysOf(entries))
    decreases |entries|
  {
    if entries != [] {
      PutKeys(built, entries[0].key, entries[0].value);
      MergeOrder(PutEntry(built, entries[0].key, entries[0].value), entries[1..]);
      assert KeysOf(entries)[1..] == KeysOf(entries[1..]);
    }
  }

  lemma {:induction false} EntriesKeys(p: Policy, entries: seq<Entry>)
    requires SanitizeEntries(p, entries).Some?
    ensures KeysOf(SanitizeEntries(p, entries).value) == ShortKeys(entries)
  {
    if entries != [] {
      EntriesKeys(p, entries[1..]);
      var rest := SanitizeEntries(p, entries[1..]).value;
      assert ShortKeys(entries) == [Clip(entries[0].key, MAX_KEY)] + ShortKeys(entries[1..]);
    }
  }

  /** The keys of a sanitized dictionary stand where their shortened forms first occur in the first 100 entries. */
  lemma DictionaryOrder(p: Policy, entries: seq<Entry>)
    requires Sanitize(p, Obj(entries)).Some?
    ensures KeysOf(Sanitize(p, Obj(entries)).value.entries) == Distinct([], ShortKeys(Clip(entries, MAX_ITEMS)))
  {
    var some := Clip(entries, MAX_ITEMS);
    EntriesKeys(p, some);
    MergeOrder([], SanitizeEntries(p, some).value);
    assert KeysOf([]) == [];
  }

  predicate HasKey(entries: seq<Entry>, k: string) {
    exists x <- entries :: x.key == k
  }

  predicate HasShortened(entries: seq<Entry>, k: string) {
    exists x <- entries :: Clip(x.key, MAX_KEY) == k
  }

  lemma {:induction false} LookupFinds(entries: seq<Entry>, k: string)
    ensures Lookup(entries, k).Some? <==> HasKey(entries, k)
  {
    if entries != [] {
      assert entries == [entries[0]] + entries[1..];
      LookupFinds(entries[1..], k);
    }
  }

  lemma {:induction false} LastForFinds(entries: seq<Entry>, k: string)
    ensures LastFor(entries, k).Some? <==> HasShortened(entries, k)
  {
    if entries != [] {
      assert entries == [entries[0]] + entries[1..];
      LastForFinds(entries[1..], k);
    }
  }

  /** The keys of a sanitized dictionary are the shortened keys of its first 100 entries. */
  lemma KeysKept(p: Policy, entries: seq<Entry>, k: string)
    requires Sanitize(p, Obj(entries)).Some?
    ensures HasKey(Sanitize(p, Obj(entries)).value.entries, k) <==> HasShortened(Clip(entries, MAX_ITEMS), k)
  {
    MergeLookup(p, [], Clip(entries, MAX_ITEMS), k);
    LookupFinds(Sanitize(p, Obj(entries)).value.entries, k);
    LastForFinds(Clip(entries, MAX_ITEMS), k);
  }

  /** Keys are shortened but not screened, so they come out free of the patterns if and only if the shortened
      keys of the first 100 entries went in free of them. */
  lemma KeysScreenedExactly(p: Policy, entries: seq<Entry>)
    requires Sanitize(p, Obj(entries)).Some?
    ensures (forall x <- Sanitize(p, Obj(entries)).value.entries :: !p.matches(x.key)) <==>
            (forall x <- Clip(entries, MAX_ITEMS) :: !p.matches(Clip(x.key, MAX_KEY)))
  {
    var r, some := Sanitize(p, Obj(entries)).value.entries, Clip(entries, MAX_ITEMS);
    forall x <- r ensures HasShortened(some, x.key) {
      assert HasKey(r, x.key);
      KeysKept(p, entries, x.key);
    }
    forall x <- some ensures HasKey(r, Clip(x.key, MAX_KEY)) {
      assert HasShortened(some, Clip(x.key, MAX_KEY));
      KeysKept(p, entries, Clip(x.key, MAX_KEY));
    }
  }

  /** The condition on the marker cannot be dropped: text that is redacted is clean afterwards exactly
      when the marker fits. */
  lemma RedactionIsCleanIffMarkerFits(p: Policy, s: string)
    requires !p.block && p.matches(Clip(Filter(s), p.maxChars))
    ensures Sanitize(p, Str(s)).Some? && (Clean(p, Sanitize(p, Str(s)).value) <==> MarkerFits(p))
  {
    MarkerAllowed();
    assert Sanitize(p, Str(s)) == Some(Str(MARKER));
  }

  /** Any key that is short enough passes, whatever the patterns and the policy. */
  lemma KeysPassUnscreened(p: Policy, k: string, text: string)
    requires |k| <= MAX_KEY && QuotedWidth(k) + |text| + 4 <= p.maxChars
    ensures Sanitize(p, Obj([Entry(k, Lit(text))])) == Some(Obj([Entry(k, Lit(text))]))
  {
    var entries := [Entry(k, Lit(text))];
    assert entries[1..] == [];
    assert DistinctKeys(entries);
    assert EntriesWidth(entries) == QuotedWidth(k) + 2 + |text|;
    CleanIsFixed(p, Obj(entries));
  }

  // Which characters of a text stay, and what is refused.

  lemma {:induction false} FilterJoin(a: string, b: string)
    ensures Filter(a + b) == Filter(a) + Filter(b)
  {
    if a == [] {
      assert a + b == b;
    } else {
      FilterJoin(a[1..], b);
      assert (a + b)[1..] == a[1..] + b;
      Regroup(if Allowed(a[0]) then [a[0]] else [], Filter(a[1..]), Filter(b));
    }
  }

  /** Every character stays, in its order, but control characters other than line feed and tab. */
  lemma OnlyControlsGo(before: string, c: char, after: string)
    ensures Filter(before + [c] + after)
            == Filter(before) + (if c as int >= 32 || c as int == 10 || c as int == 9 then [c] else []) + Filter(after)
    ensures Filter("") == ""
  {
    FilterJoin(before + [c], after);
    FilterJoin(before, [c]);
    FilterOne(c);
  }

  lemma FilterOne(c: char)
    ensures Filter([c]) == if c as int >= 32 || c as int == 10 || c as int == 9 then [c] else []
  {
    assert [c][1..] == [] && Filter([c][1..]) == [];
  }

  /** A text comes back as its first characters after filtering, as many as the limit allows. If these match the
      patterns, the text is refused under `block` and replaced as a whole otherwise. */
  lemma TextScreened(p: Policy, s: string, kept: string)
    requires kept <= Filter(s) && |kept| == if |Filter(s)| > p.maxChars then p.maxChars else |Filter(s)|
    ensures Sanitize(p, Str(s)).None? <==> p.block && p.matches(kept)
    ensures !p.matches(kept) ==> Sanitize(p, Str(s)) == Some(Str(kept))
    ensures p.matches(kept) && !p.block ==> Sanitize(p, Str(s)) == Some(Str(MARKER))
  {
    assert kept == Clip(Filter(s), p.maxChars);
  }

  /** `done` holds the sanitized forms of `items`. */
  predicate Sanitized(p: Policy, items: seq<Json>, done: seq<Json>) {
    |done| == |items| && forall i :: 0 <= i < |items| ==> Sanitize(p, items[i]) == Some(done[i])
  }

  lemma {:induction false} ItemsRefused(p: Policy, items: seq<Json>)
    ensures SanitizeItems(p, items).None? <==> exists x <- items :: Sanitize(p, x).None?
  {
    if items != [] {
      ItemsRefused(p, items[1..]);
      assert items == [items[0]] + items[1..];
      if x :| x in items[1..] && Sanitize(p, x).None? { assert x in items; }
      if Sanitize(p, items[0]).None? { assert items[0] in items; }
    }
  }

  /** A list is refused if and only if one of its first 100 elements is, or what they make is too long; an
      element after those does not matter. */
  lemma ListRefusedExactly(p: Policy, items: seq<Json>)
    ensures var some := if |items| > 100 then items[..100] else items;
      Sanitize(p, Arr(items)).None? <==>
        || (exists x <- some :: Sanitize(p, x).None?)
        || (exists done :: Sanitized(p, some, done) && |Dump(Arr(done))| > p.maxChars)
  {
    var some := Clip(items, MAX_ITEMS);
    ItemsRefused(p, some);
    ItemsOneByOne(p, some);
    if SanitizeItems(p, some).Some? {
      var done := SanitizeItems(p, some).value;
      WidthIsLength(Arr(done));
      forall other | Sanitized(p, some, other) ensures other == done { SameForms(p, some, done, other); }
    } else {
      var x :| x in some && Sanitize(p, x).None?;
    }
  }

  lemma SameForms(p: Policy, items: seq<Json>, a: seq<Json>, b: seq<Json>)
    requires Sanitized(p, items, a) && Sanitized(p, items, b)
    ensures a == b
  {
  }

  lemma {:induction false} EntriesRefused(p: Policy, entries: seq<Entry>)
    ensures SanitizeEntries(p, entries).None? <==> exists x <- entries :: Sanitize(p, x.value).None?
  {
    if entries != [] {
      EntriesRefused(p, entries[1..]);
      assert entries == [entries[0]] + entries[1..];
    }
  }

  /** A dictionary is refused if one of its first 100 values is. If none is, it is refused if and only if what
      they make is too long. */
  lemma DictionaryRefusedExactly(p: Policy, entries: seq<Entry>)
    ensures var some := if |entries| > 100 then entries[..100] else entries;
      && ((exists x <- some :: Sanitize(p, x.value).None?) ==> Sanitize(p, Obj(entries)).None?)
      && ((forall x <- some :: Sanitize(p, x.value).Some?) ==>
            && SanitizeEntries(p, some).Some?
            && (Sanitize(p, Obj(entries)).None? <==>
                  |Dump(Obj(Merge([], SanitizeEntries(p, some).value)))| > p.maxChars))
  {
    var some := Clip(entries, MAX_ITEMS);
    EntriesRefused(p, some);
    if SanitizeEntries(p, some).Some? { WidthIsLength(Obj(Merge([], SanitizeEntries(p, some).value))); }
  }

  // The serialised text itself, whose length the limit is about.

  function HexDigit(n: nat): char
    requires n < 16
  {
    if n < 10 then '0' + n as char else 'a' + (n - 10) as char
  }

  function Hex4(n: nat): string
    requires n < 0x10000
  {
    "\\u" + [HexDigit(n / 4096), HexDigit(n / 256 % 16), HexDigit(n / 16 % 16), HexDigit(n % 16)]
  }

  function Escape(c: char): string {
    if c == '\"' then "\\\"" else if c == '\\' then "\\\\"
    else if c == '\n' then "\\n" else if c == '\r' then "\\r" else if c == '\t' then "\\t"
    else if c as int == 8 then "\\b" else if c as int == 12 then "\\f"
    else if ' ' <= c <= '~' then [c]
    else if c as int <= 0xFFFF then Hex4(c as int)
    else var n := c as int - 0x10000; Hex4(0xD800 + n / 1024) + Hex4(0xDC00 + n % 1024)
  }

  function Escaped(s: string): string {
    if s == [] then [] else Escape(s[0]) + Escaped(s[1..])
  }

  function Quoted(s: string): string {
    "\"" + Escaped(s) + "\""
  }

  /** The text that `json.dumps` makes of a value. */
  function Dump(v: Json): string
    decreases v
  {
    match v
    case Lit(text) => text
    case Str(s) => Quoted(s)
    case Arr(items) => "[" + DumpItems(items) + "]"
    case Obj(entries) => "{" + DumpEntries(entries) + "}"
  }

  function DumpItems(items: seq<Json>): string
    decreases items
  {
    if items == [] then "" else Dump(items[0]) + (if |items| > 1 then ", " else "") + DumpItems(items[1..])
  }

  function DumpEntries(entries: seq<Entry>): string
    decreases entries
  {
    if entries == [] then ""
    else Quoted(entries[0].key) + ": " + Dump(entries[0].value) + (if |entries| > 1 then ", " else "")
         + DumpEntries(entries[1..])
  }

  lemma EscapeWidth(c: char)
    ensures |Escape(c)| == EscapedWidth(c)
  {
  }

  lemma {:induction false} QuotedLength(s: string)
    ensures |Quoted(s)| == QuotedWidth(s)
  {
    if s != [] {
      EscapeWidth(s[0]);
      QuotedLength(s[1..]);
    }
  }

  /** The limit is one on the length of the serialised text. */
  lemma {:induction false} WidthIsLength(v: Json)
    ensures |Dump(v)| == Width(v)
    decreases v
  {
    match v
    case Lit(_) =>
    case Str(s) => QuotedLength(s);
    case Arr(items) => ItemsLength(items);
    case Obj(entries) => EntriesLength(entries);
  }

  lemma {:induction false} ItemsLength(items: seq<Json>)
    ensures |DumpItems(items)| == ItemsWidth(items)
    decreases items
  {
    if items != [] {
      WidthIsLength(items[0]);
      ItemsLength(items[1..]);
    }
  }

  lemma {:induction false} EntriesLength(entries: seq<Entry>)
    ensures |DumpEntries(entries)| == EntriesWidth(entries)
    decreases entries
  {
    if entries != [] {
      QuotedLength(entries[0].key);
      WidthIsLength(entries[0].value);
      EntriesLength(entries[1..]);
    }
  }
}
