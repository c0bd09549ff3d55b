/** The content of the master list: union-merging one run's blocked set into the existing entries and
    bringing entries into their canonical published form. URL grammar and identity are injected. */
module MasterEntries {
  import opened Common
  import opened Names

  datatype Value = Text(text: string) | Number(number: int) | Flag(flag: bool)

  datatype Entry = Entry(name: string, fields: map<string, Value>)

  /** The injected platform policy: `canonicalize_url` (None where it raises) and `identity_key`. */
  datatype Policy = Policy(canon: string -> Option<string>, key: string -> string)

  /** What this run contributes: proven-blocked URLs, the manual list and the blacklist. */
  datatype Contribution = Contribution(
    blocked: seq<string>, manual: seq<string>, blacklist: set<string>, session: int, now: string)

  predicate IsCanonical(p: Policy, url: string) {
    p.canon(url) == Some(url)
  }

  /** The grammar is idempotent and never produces the empty name. */
  ghost predicate Idempotent(p: Policy) {
    forall s {:trigger p.canon(s)} :: p.canon(s).Some? ==> IsCanonical(p, p.canon(s).value) && p.canon(s).value != ""
  }

  ghost predicate CanonicalContribution(p: Policy, c: Contribution) {
    && (forall u :: u in c.blocked ==> IsCanonical(p, u))
    && (forall u :: u in c.manual ==> IsCanonical(p, u))
  }

  function KeysOf(p: Policy, urls: set<string>): set<string> {
    set u | u in urls :: p.key(u)
  }

  function UrlKeys(p: Policy, urls: seq<string>): set<string> {
    set u | u in urls :: p.key(u)
  }

  ghost function EntryKeys(p: Policy, es: seq<Entry>): set<string> {
    set e | e in es :: p.key(e.name)
  }

  ghost function NamesOf(es: seq<Entry>): seq<string> {
    seq(|es|, i requires 0 <= i < |es| => es[i].name)
  }

  ghost predicate DistinctKeys(p: Policy, es: seq<Entry>) {
    forall i, j :: 0 <= i < j < |es| ==> p.key(es[i].name) != p.key(es[j].name)
  }

  /** A publishable master: canonical non-empty names, and no two entries are one identity. */
  ghost predicate Valid(p: Policy, es: seq<Entry>) {
    && (forall e :: e in es ==> e.name != "" && IsCanonical(p, e.name))
    && DistinctKeys(p, es)
  }

  /** `_validate_entries`: accepts exactly the publishable masters. */
  method ValidateEntries(p: Policy, es: seq<Entry>) returns (ok: bool)
    ensures ok <==> Valid(p, es)
  {
    var seen: set<string> := {};
    var seenKeys: map<string, string> := map[];
    for i := 0 to |es|
      invariant seen == set e | e in es[..i] :: e.name
      invariant seenKeys.Keys == EntryKeys(p, es[..i])
      invariant forall k :: k in seenKeys ==> seenKeys[k] in seen
      invariant Valid(p, es[..i])
    {
      var name := es[i].name;
      assert es[..i + 1] == es[..i] + [es[i]];
      if name == "" || !IsCanonical(p, name) {
        assert es[i] in es;
        return false;
      }
      if name in seen {
        var e :| e in es[..i] && e.name == name;
        var j :| 0 <= j < i && es[j] == e;
        assert p.key(es[j].name) == p.key(es[i].name);
        return false;
      }
      var key := p.key(name);
      if key in seenKeys && seenKeys[key] != name {
        var e :| e in es[..i] && p.key(e.name) == key;
        var j :| 0 <= j < i && es[j] == e;
        assert p.key(es[j].name) == p.key(es[i].name);
        return false;
      }
      seen := seen + {name};
      seenKeys := seenKeys[key := name];
    }
    assert es[..|es|] == es;
    return true;
  }

  // ---------------------------------------------------------------- merging a run into the master

  function Take(s: string, n: nat): string {
    if |s| <= n then s else s[..n]
  }

  function Protect(p: Policy, manualKeys: set<string>, e: Entry): Entry {
    if p.key(e.name) in manualKeys then e.(fields := e.fields["manual" := Flag(true)]) else e
  }

  function NewEntry(url: string, session: int, manual: bool, now: string): Entry {
    Entry(url, map["date" := Text(Take(now, 10)), "session" := Number(session),
                   "manual" := Flag(manual), "timestamp" := Text(Take(now, 19))])
  }

  /** The last entry, and the first URL, carrying a given identity. */
  ghost function LastEntry(p: Policy, es: seq<Entry>, k: string): Option<Entry> {
    if es == [] then None
    else if p.key(es[|es| - 1].name) == k then Some(es[|es| - 1])
    else LastEntry(p, es[..|es| - 1], k)
  }

  ghost function FirstUrl(p: Policy, urls: seq<string>, k: string): Option<string> {
    if urls == [] then None
    else
      var before := FirstUrl(p, urls[..|urls| - 1], k);
      if before.Some? then before
      else if p.key(urls[|urls| - 1]) == k then Some(urls[|urls| - 1])
      else None
  }

  /** What the merged master must hold for one identity. */
  ghost function MergedEntry(p: Policy, base: seq<Entry>, c: Contribution, k: string): Option<Entry> {
    var manualKeys := UrlKeys(p, c.manual);
    match LastEntry(p, base, k)
    case Some(e) => Some(Protect(p, manualKeys, e))
    case None =>
      if k in KeysOf(p, c.blacklist) then None
      else match FirstUrl(p, c.blocked, k)
        case Some(u) => Some(NewEntry(u, c.session, k in manualKeys, c.now))
        case None =>
          match FirstUrl(p, c.manual, k)
          case Some(u) => Some(NewEntry(u, 0, true, c.now))
          case None => None
  }

  lemma {:induction false} LastEntryIsListed(p: Policy, es: seq<Entry>, k: string)
    ensures LastEntry(p, es, k).Some? <==> k in EntryKeys(p, es)
    ensures LastEntry(p, es, k).Some? ==> LastEntry(p, es, k).value in es && p.key(LastEntry(p, es, k).value.name) == k
  {
    if es != [] {
      var n := |es| - 1;
      assert es == es[..n] + [es[n]];
      LastEntryIsListed(p, es[..n], k);
    }
  }

  lemma {:induction false} FirstUrlIsListed(p: Policy, urls: seq<string>, k: string)
    ensures FirstUrl(p, urls, k).Some? <==> k in UrlKeys(p, urls)
    ensures FirstUrl(p, urls, k).Some? ==> FirstUrl(p, urls, k).value in urls && p.key(FirstUrl(p, urls, k).value) == k
  {
    if urls != [] {
      var n := |urls| - 1;
      assert urls == urls[..n] + [urls[n]];
      FirstUrlIsListed(p, urls[..n], k);
    }
  }

  lemma {:induction false} MergedEntryHasItsKey(p: Policy, base: seq<Entry>, c: Contribution, k: string)
    ensures MergedEntry(p, base, c, k).Some? ==> p.key(MergedEntry(p, base, c, k).value.name) == k
    ensures MergedEntry(p, base, c, k).Some? <==>
            k in EntryKeys(p, base) + (UrlKeys(p, c.blocked) + UrlKeys(p, c.manual) - KeysOf(p, c.blacklist))
  {
    LastEntryIsListed(p, base, k);
    FirstUrlIsListed(p, c.blocked, k);
    FirstUrlIsListed(p, c.manual, k);
  }

  /** A list holds the merge result: for every identity exactly the entry the merge prescribes. */
  ghost predicate HoldsMerge(p: Policy, base: seq<Entry>, c: Contribution, merged: seq<Entry>) {
    && (forall e :: e in merged ==> MergedEntry(p, base, c, p.key(e.name)) == Some(e))
    && (forall k :: MergedEntry(p, base, c, k).Some? ==> k in EntryKeys(p, merged))
    && DistinctKeys(p, merged)
  }

  function At(m: map<string, Entry>, k: string): Option<Entry> {
    if k in m then Some(m[k]) else None
  }

  /** The table after some URLs were added to it: present identities win, blacklisted ones stay out. */
  ghost function Added(p: Policy, c: Contribution, present: map<string, Entry>, urls: seq<string>, proven: bool,
                       k: string): Option<Entry>
  {
    if k in present then Some(present[k])
    else if k in KeysOf(p, c.blacklist) then None
    else match FirstUrl(p, urls, k)
      case None => None
      case Some(u) =>
        if proven then Some(NewEntry(u, c.session, k in UrlKeys(p, c.manual), c.now))
        else Some(NewEntry(u, 0, true, c.now))
  }

  lemma {:induction false} AddedSnoc(p: Policy, c: Contribution, present: map<string, Entry>, urls: seq<string>,
      proven: bool, u: string)
    ensures forall k | Added(p, c, present, urls, proven, k).Some? || k != p.key(u) || k in KeysOf(p, c.blacklist) ::
              Added(p, c, present, urls + [u], proven, k) == Added(p, c, present, urls, proven, k)
    ensures var k := p.key(u);
            Added(p, c, present, urls, proven, k).None? && k !in KeysOf(p, c.blacklist) ==>
              Added(p, c, present, urls + [u], proven, k) ==
              Some(if proven then NewEntry(u, c.session, k in UrlKeys(p, c.manual), c.now)
                else NewEntry(u, 0, true, c.now))
  {
    assert (urls + [u])[..|urls|] == urls;
  }

  /** `merge_blocked_into_master`. */
  method MergeBlockedIntoMaster(p: Policy, base: seq<Entry>, c: Contribution) returns (result: seq<Entry>)
    ensures HoldsMerge(p, base, c, result)
    ensures forall i, j :: 0 <= i < j < |result| ==> Lt(p.key(result[i].name), p.key(result[j].name))
  {
    var blacklistKeys := KeysOf(p, c.blacklist);
    var manualKeys := UrlKeys(p, c.manual);
    var merged: map<string, Entry> := map[];
    for i := 0 to |base|
      invariant forall k :: k in merged ==> LastEntry(p, base[..i], k).Some?
                                            && merged[k] == Protect(p, manualKeys, LastEntry(p, base[..i], k).value)
      invariant forall k :: LastEntry(p, base[..i], k).Some? ==> k in merged
    {
      assert base[..i + 1][..i] == base[..i];
      var item := base[i];
      var key := p.key(item.name);
      if key in manualKeys {
        item := item.(fields := item.fields["manual" := Flag(true)]);
      }
      merged := merged[key := item];
    }
    assert base[..|base|] == base;
    ghost var protected := merged;
    for i := 0 to |c.blocked|
      invariant forall k :: At(merged, k) == Added(p, c, protected, c.blocked[..i], true, k)
    {
      AddedSnoc(p, c, protected, c.blocked[..i], true, c.blocked[i]);
      assert c.blocked[..i + 1] == c.blocked[..i] + [c.blocked[i]];
      var url := c.blocked[i];
      var key := p.key(url);
      if !(key in blacklistKeys || key in merged) {
        merged := merged[key := NewEntry(url, c.session, key in manualKeys, c.now)];
      }
    }
    assert c.blocked[..|c.blocked|] == c.blocked;
    ghost var withBlocked := merged;
    for i := 0 to |c.manual|
      invariant forall k :: At(merged, k) == Added(p, c, withBlocked, c.manual[..i], false, k)
    {
      AddedSnoc(p, c, withBlocked, c.manual[..i], false, c.manual[i]);
      assert c.manual[..i + 1] == c.manual[..i] + [c.manual[i]];
      var url := c.manual[i];
      var key := p.key(url);
      if key !in blacklistKeys {
        if key !in merged {
          merged := merged[key := NewEntry(url, 0, true, c.now)];
        }
      }
    }
    assert c.manual[..|c.manual|] == c.manual;
    forall k ensures At(merged, k) == MergedEntry(p, base, c, k) {
      assert k in protected <==> LastEntry(p, base, k).Some?;
      assert At(merged, k) == Added(p, c, withBlocked, c.manual, false, k);
      assert At(withBlocked, k) == Added(p, c, protected, c.blocked, true, k);
    }
    result := ValuesInOrder(merged);
    KeyedValues(p, base, c, merged, result);
  }

  lemma {:induction false} KeyedValuesInOrder(p: Policy, base: seq<Entry>, c: Contribution, m: map<string, Entry>,
      r: seq<Entry>)
    requires r == ValuesInOrder(m)
    requires forall k :: At(m, k) == MergedEntry(p, base, c, k)
    ensures |r| == |SortedNames(m.Keys)|
    ensures forall i :: 0 <= i < |r| ==>
      p.key(r[i].name) == SortedNames(m.Keys)[i] && SortedNames(m.Keys)[i] in m && r[i] == m[SortedNames(m.Keys)[i]]
    ensures forall i, j :: 0 <= i < j < |r| ==> Lt(p.key(r[i].name), p.key(r[j].name))
  {
    var keys := SortedNames(m.Keys);
    forall i | 0 <= i < |r| ensures p.key(r[i].name) == keys[i] && keys[i] in m && r[i] == m[keys[i]] {
      assert At(m, keys[i]) == Some(r[i]);
      MergedEntryHasItsKey(p, base, c, keys[i]);
    }
  }

  lemma {:induction false} KeyedValues(p: Policy, base: seq<Entry>, c: Contribution, m: map<string, Entry>,
      r: seq<Entry>)
    requires r == ValuesInOrder(m)
    requires forall k :: At(m, k) == MergedEntry(p, base, c, k)
    ensures HoldsMerge(p, base, c, r)
    ensures forall i, j :: 0 <= i < j < |r| ==> Lt(p.key(r[i].name), p.key(r[j].name))
  {
    var keys := SortedNames(m.Keys);
    KeyedValuesInOrder(p, base, c, m, r);
    forall k | MergedEntry(p, base, c, k).Some? ensures k in EntryKeys(p, r) {
      assert At(m, k).Some?;
      assert k in keys;
      var i :| 0 <= i < |keys| && keys[i] == k;
      assert r[i] in r;
    }
    forall e | e in r ensures MergedEntry(p, base, c, p.key(e.name)) == Some(e) {
      var i :| 0 <= i < |r| && r[i] == e;
      assert At(m, keys[i]) == Some(e);
    }
  }

  /** The merged identities: everything already listed, plus the proven and manual ones not blacklisted. */
  lemma {:induction false} MergeKeys(p: Policy, base: seq<Entry>, c: Contribution, merged: seq<Entry>)
    requires HoldsMerge(p, base, c, merged)
    ensures EntryKeys(p, merged) ==
      EntryKeys(p, base) + (UrlKeys(p, c.blocked) + UrlKeys(p, c.manual) - KeysOf(p, c.blacklist))
  {
    forall k ensures k in EntryKeys(p, merged) <==> MergedEntry(p, base, c, k).Some? {
      MergedEntryHasItsKey(p, base, c, k);
    }
    forall k { MergedEntryHasItsKey(p, base, c, k); }
  }

  lemma {:induction false} LastEntryOfDistinct(p: Policy, es: seq<Entry>, e: Entry)
    requires DistinctKeys(p, es) && e in es
    ensures LastEntry(p, es, p.key(e.name)) == Some(e)
  {
    var n := |es| - 1;
    assert es == es[..n] + [es[n]];
    if e != es[n] {
      assert e in es[..n];
      var i :| 0 <= i < n && es[i] == e;
      assert p.key(es[i].name) != p.key(es[n].name);
      LastEntryOfDistinct(p, es[..n], e);
    }
  }

  /** No entry is lost or respelled: each survives, at most gaining the manual mark. */
  lemma {:induction false} MergeKeepsEntries(p: Policy, base: seq<Entry>, c: Contribution, merged: seq<Entry>)
    requires HoldsMerge(p, base, c, merged) && DistinctKeys(p, base)
    ensures forall e :: e in base ==> Protect(p, UrlKeys(p, c.manual), e) in merged
  {
    forall e | e in base ensures Protect(p, UrlKeys(p, c.manual), e) in merged {
      var k := p.key(e.name);
      LastEntryOfDistinct(p, base, e);
      assert MergedEntry(p, base, c, k) == Some(Protect(p, UrlKeys(p, c.manual), e));
      var r :| r in merged && p.key(r.name) == k;
      assert MergedEntry(p, base, c, k) == Some(r);
    }
  }

  lemma {:induction false} MergedEntryIsMarked(p: Policy, base: seq<Entry>, c: Contribution, k: string)
    requires MergedEntry(p, base, c, k).Some?
    ensures var e := MergedEntry(p, base, c, k).value; Protect(p, UrlKeys(p, c.manual), e) == e
  {
    var e := MergedEntry(p, base, c, k).value;
    MergedEntryHasItsKey(p, base, c, k);
    assert e.fields == if k in UrlKeys(p, c.manual) then e.fields["manual" := Flag(true)] else e.fields;
  }

  /** Merging the same contribution a second time changes no entry at all. */
  lemma {:induction false} MergeIsIdempotent(p: Policy, base: seq<Entry>, c: Contribution, once: seq<Entry>,
      twice: seq<Entry>)
    requires HoldsMerge(p, base, c, once) && HoldsMerge(p, once, c, twice)
    ensures EntryKeys(p, twice) == EntryKeys(p, once)
    ensures forall e :: e in twice <==> e in once
  {
    MergeKeys(p, base, c, once);
    MergeKeys(p, once, c, twice);
    forall e | e in once ensures e in twice {
      MergeKeepsEntries(p, once, c, twice);
      MergedEntryIsMarked(p, base, c, p.key(e.name));
    }
    forall e | e in twice ensures e in once {
      var r :| r in once && p.key(r.name) == p.key(e.name);
      LastEntryOfDistinct(p, once, r);
      MergedEntryIsMarked(p, base, c, p.key(r.name));
    }
  }

  // ---------------------------------------------------------------- canonical published form

  /** The entry canonicalisation must produce for one identity: the first spelling stays, later
      fields of the same identity are folded in. */
  ghost function CanonicalEntry(p: Policy, es: seq<Entry>, k: string): Option<Entry> {
    if es == [] then None
    else
      var before := CanonicalEntry(p, es[..|es| - 1], k);
      var raw := es[|es| - 1];
      match p.canon(raw.name)
      case None => before
      case Some(name) =>
        if p.key(name) != k then before
        else if before.Some? && before.value.name != name then
          Some(before.value.(fields := before.value.fields + raw.fields))
        else Some(raw.(name := name))
  }

  ghost predicate HoldsCanonical(p: Policy, es: seq<Entry>, result: seq<Entry>) {
    && (forall e :: e in result ==> CanonicalEntry(p, es, p.key(e.name)) == Some(e))
    && (forall k :: CanonicalEntry(p, es, k).Some? ==> k in EntryKeys(p, result))
  }

  /** The two dictionaries of `_canonical_entries` after some entries: `byName` holds one entry per
      identity, `keyToName` its kept spelling. */
  ghost predicate Tables(p: Policy, es: seq<Entry>, byName: map<string, Entry>, keyToName: map<string, string>) {
    && Linked(p, byName, keyToName)
    && (forall k :: CanonicalEntry(p, es, k) == if k in keyToName then Some(byName[keyToName[k]]) else None)
  }

  ghost predicate Linked(p: Policy, byName: map<string, Entry>, keyToName: map<string, string>) {
    && (forall k :: k in keyToName ==> keyToName[k] in byName && p.key(keyToName[k]) == k)
    && (forall n :: n in byName ==> p.key(n) in keyToName && keyToName[p.key(n)] == n && byName[n].name == n)
  }

  ghost predicate SpelledBy(p: Policy, es: seq<Entry>, name: string) {
    exists e :: e in es && p.canon(e.name) == Some(name)
  }

  lemma {:induction false} CanonicalEntrySnoc(p: Policy, es: seq<Entry>, raw: Entry, name: string, k: string)
    requires p.canon(raw.name) == Some(name)
    ensures CanonicalEntry(p, es + [raw], k) ==
            (var before := CanonicalEntry(p, es, k);
             if p.key(name) != k then before
             else if before.Some? && before.value.name != name then
               Some(before.value.(fields := before.value.fields + raw.fields))
             else Some(raw.(name := name)))
  {
    assert (es + [raw])[..|es|] == es;
  }

  function FoldByName(p: Policy, byName: map<string, Entry>, names: map<string, string>, item: Entry)
    : map<string, Entry>
    requires forall k :: k in names ==> names[k] in byName
  {
    var key := p.key(item.name);
    if key in names && names[key] != item.name then
      byName[names[key] := byName[names[key]].(fields := byName[names[key]].fields + item.fields)]
    else byName[item.name := item]
  }

  lemma {:induction false} LinkedFold(p: Policy, byName: map<string, Entry>, names: map<string, string>, item: Entry)
    requires Linked(p, byName, names)
    ensures var key := p.key(item.name);
            Linked(p, FoldByName(p, byName, names, item),
                   if key in names && names[key] != item.name then names else names[key := item.name])
  {
  }

  lemma {:induction false} TablesSnoc(p: Policy, es: seq<Entry>, raw: Entry, item: Entry, byName: map<string, Entry>,
      names: map<string, string>)
    requires Tables(p, es, byName, names)
    requires p.canon(raw.name) == Some(item.name) && item.fields == raw.fields
    ensures var key := p.key(item.name);
            Tables(p, es + [raw], FoldByName(p, byName, names, item),
                   if key in names && names[key] != item.name then names else names[key := item.name])
  {
    var key := p.key(item.name);
    var byName' := FoldByName(p, byName, names, item);
    var names' := if key in names && names[key] != item.name then names else names[key := item.name];
    assert item == raw.(name := item.name);
    LinkedFold(p, byName, names, item);
    forall k ensures CanonicalEntry(p, es + [raw], k) == if k in names' then Some(byName'[names'[k]]) else None {
      CanonicalEntrySnoc(p, es, raw, item.name, k);
      assert CanonicalEntry(p, es, k) == if k in names then Some(byName[names[k]]) else None;
      if k != key && k in names {
        assert names[k] != item.name && (key in names ==> names[k] != names[key]);
      }
    }
  }

  method GatherByIdentity(p: Policy, es: seq<Entry>)
    returns (ok: bool, byName: map<string, Entry>, ghost keyToName: map<string, string>)
    ensures ok <==> forall e :: e in es ==> p.canon(e.name).Some?
    ensures ok ==> Tables(p, es, byName, keyToName) && forall n :: n in byName ==> SpelledBy(p, es, n)
  {
    byName := map[];
    var names: map<string, string> := map[];
    keyToName := names;
    for i := 0 to |es|
      invariant forall e :: e in es[..i] ==> p.canon(e.name).Some?
      invariant Tables(p, es[..i], byName, names)
      invariant forall n :: n in byName ==> SpelledBy(p, es[..i], n)
    {
      var raw := es[i];
      assert es[..i + 1] == es[..i] + [raw];
      var name := p.canon(raw.name);
      if name.None? {
        assert raw in es;
        return false, byName, names;
      }
      assert SpelledBy(p, es[..i + 1], name.value) by { assert raw in es[..i + 1]; }
      forall n | SpelledBy(p, es[..i], n) ensures SpelledBy(p, es[..i + 1], n) {
        var e :| e in es[..i] && p.canon(e.name) == Some(n);
        assert e in es[..i + 1];
      }
      var item := raw.(name := name.value);
      TablesSnoc(p, es[..i], raw, item, byName, names);
      var key := p.key(item.name);
      if key in names && names[key] != item.name {
        var existing := names[key];
        byName := byName[existing := byName[existing].(fields := byName[existing].fields + item.fields)];
      } else {
        byName := byName[item.name := item];
        names := names[key := item.name];
      }
    }
    assert es[..|es|] == es;
    return true, byName, names;
  }

  lemma {:induction false} ValuesAreNamed(byName: map<string, Entry>, r: seq<Entry>)
    requires r == ValuesInOrder(byName) && forall n :: n in byName ==> byName[n].name == n
    ensures NamesOf(r) == SortedNames(byName.Keys)
    ensures forall i :: 0 <= i < |r| ==> r[i].name in byName && byName[r[i].name] == r[i]
  {
    var names := SortedNames(byName.Keys);
    forall i | 0 <= i < |r| ensures r[i].name == names[i] && names[i] in byName {
      assert names[i] in names;
    }
  }

  lemma {:induction false} ValuesHoldCanonical(p: Policy, es: seq<Entry>, byName: map<string, Entry>,
      keyToName: map<string, string>, r: seq<Entry>)
    requires Tables(p, es, byName, keyToName) && r == ValuesInOrder(byName)
    ensures HoldsCanonical(p, es, r)
  {
    ValuesAreNamed(byName, r);
    forall k | CanonicalEntry(p, es, k).Some? ensures k in EntryKeys(p, r) {
      var i :| 0 <= i < |r| && SortedNames(byName.Keys)[i] == keyToName[k];
      assert r[i] in r;
    }
  }

  lemma {:induction false} ValuesAreDistinct(p: Policy, byName: map<string, Entry>, keyToName: map<string, string>,
      r: seq<Entry>)
    requires Linked(p, byName, keyToName) && r == ValuesInOrder(byName)
    ensures DistinctKeys(p, r)
  {
    ValuesAreNamed(byName, r);
    forall i, j | 0 <= i < j < |r| ensures p.key(r[i].name) != p.key(r[j].name) {
      assert Lt(SortedNames(byName.Keys)[i], SortedNames(byName.Keys)[j]);
      assert NamesOf(r)[i] == r[i].name && NamesOf(r)[j] == r[j].name;
      LtTrichotomy(r[i].name, r[j].name);
      assert keyToName[p.key(r[i].name)] == r[i].name && keyToName[p.key(r[j].name)] == r[j].name;
    }
  }

  /** `_canonical_entries`; None where it raises. */
  method CanonicalEntries(p: Policy, es: seq<Entry>) returns (result: Option<seq<Entry>>)
    ensures result.Some? ==>
      Valid(p, result.value) && Ascending(NamesOf(result.value)) && HoldsCanonical(p, es, result.value)
    ensures Idempotent(p) ==> (result.None? <==> exists e :: e in es && p.canon(e.name).None?)
  {
    var gathered, byName, keyToName := GatherByIdentity(p, es);
    if !gathered { return None; }
    var canonical := ValuesInOrder(byName);
    ValuesHoldCanonical(p, es, byName, keyToName, canonical);
    ValuesAreNamed(byName, canonical);
    var ok := ValidateEntries(p, canonical);
    if Idempotent(p) {
      ValuesAreDistinct(p, byName, keyToName, canonical);
      forall e | e in canonical ensures e.name != "" && IsCanonical(p, e.name) {
        assert SpelledBy(p, es, e.name);
      }
    }
    if !ok { return None; }
    return Some(canonical);
  }

  lemma {:induction false} CanonicalEntryOfDistinct(p: Policy, es: seq<Entry>, k: string)
    requires DistinctKeys(p, es)
    requires forall e :: e in es ==> IsCanonical(p, e.name)
    ensures CanonicalEntry(p, es, k) == LastEntry(p, es, k)
  {
    if es != [] {
      var n := |es| - 1;
      assert es == es[..n] + [es[n]];
      assert es[n] in es;
      CanonicalEntryOfDistinct(p, es[..n], k);
      LastEntryIsListed(p, es[..n], k);
      forall e | e in es[..n] ensures p.key(e.name) != p.key(es[n].name) {
        var i :| 0 <= i < n && es[i] == e;
        assert p.key(es[i].name) != p.key(es[n].name);
      }
    }
  }

  /** On entries that already are canonical and distinct, canonicalisation only reorders. */
  lemma {:induction false} CanonicalOnlyReorders(p: Policy, es: seq<Entry>, result: seq<Entry>)
    requires DistinctKeys(p, es) && (forall e :: e in es ==> IsCanonical(p, e.name))
    requires HoldsCanonical(p, es, result)
    ensures forall e :: e in result <==> e in es
    ensures EntryKeys(p, result) == EntryKeys(p, es)
  {
    forall e | e in result ensures e in es {
      CanonicalEntryOfDistinct(p, es, p.key(e.name));
      LastEntryIsListed(p, es, p.key(e.name));
    }
    forall e | e in es ensures e in result {
      var k := p.key(e.name);
      CanonicalEntryOfDistinct(p, es, k);
      LastEntryOfDistinct(p, es, e);
      var r :| r in result && p.key(r.name) == k;
    }
  }

  // ---------------------------------------------------------------- the promise to the published master

  /** What a publication promises about the master that replaces `base`. */
  ghost predicate MasterPromise(p: Policy, base: seq<Entry>, c: Contribution, published: seq<Entry>) {
    && Valid(p, published)
    && Ascending(NamesOf(published))
    && EntryKeys(p, published) ==
      EntryKeys(p, base) + (UrlKeys(p, c.blocked) + UrlKeys(p, c.manual) - KeysOf(p, c.blacklist))
    && (forall e :: e in base ==> Protect(p, UrlKeys(p, c.manual), e) in published)
    && (forall e :: e in published && p.key(e.name) !in EntryKeys(p, base) ==>
      (e.name in c.blocked || e.name in c.manual) && NewFields(p, c, e))
  }

  /** A new entry carries this session where its URL was proven blocked, and 0 where it is only manual. */
  ghost predicate NewFields(p: Policy, c: Contribution, e: Entry) {
    && e.fields.Keys == {"date", "session", "manual", "timestamp"}
    && e.fields["session"] == Number(if p.key(e.name) in UrlKeys(p, c.blocked) then c.session else 0)
    && e.fields["manual"] == Flag(p.key(e.name) in UrlKeys(p, c.manual))
  }

  /** The first n characters of a time, or the whole of a shorter one. */
  ghost predicate Opening(now: string, n: nat, v: Value) {
    v.Text? && v.text <= now && (|v.text| == n || (|v.text| < n && v.text == now))
  }

  /** New entries carry the date and the time they are staged at. */
  ghost predicate Stamped(p: Policy, base: seq<Entry>, now: string, published: seq<Entry>) {
    forall e :: e in published && p.key(e.name) !in EntryKeys(p, base) ==>
      && "date" in e.fields && Opening(now, 10, e.fields["date"])
      && "timestamp" in e.fields && Opening(now, 19, e.fields["timestamp"])
  }

  /** The entry builder followed by the canonical form, as one publication stages it. */
  method BuildMaster(p: Policy, base: seq<Entry>, c: Contribution) returns (published: Option<seq<Entry>>)
    requires Valid(p, base)
    ensures Idempotent(p) && CanonicalContribution(p, c) ==>
              published.Some? && MasterPromise(p, base, c, published.value) && Stamped(p, base, c.now, published.value)
    ensures published.Some? ==> Valid(p, published.value)
  {
    var merged := MergeBlockedIntoMaster(p, base, c);
    published := CanonicalEntries(p, merged);
    if Idempotent(p) && CanonicalContribution(p, c) {
      MergeIsCanonical(p, base, c, merged);
      CanonicalOnlyReorders(p, merged, published.value);
      MergeKeys(p, base, c, merged);
      MergeKeepsEntries(p, base, c, merged);
    }
  }

  lemma {:induction false} MergeIsCanonical(p: Policy, base: seq<Entry>, c: Contribution, merged: seq<Entry>)
    requires Valid(p, base) && CanonicalContribution(p, c) && HoldsMerge(p, base, c, merged)
    ensures forall e :: e in merged ==> IsCanonical(p, e.name)
    ensures forall e :: e in merged && p.key(e.name) !in EntryKeys(p, base) ==>
      (e.name in c.blocked || e.name in c.manual) && NewFields(p, c, e)
    ensures Stamped(p, base, c.now, merged)
  {
    forall e | e in merged
      ensures IsCanonical(p, e.name)
      ensures p.key(e.name) !in EntryKeys(p, base) ==>
        (e.name in c.blocked || e.name in c.manual) && NewFields(p, c, e)
        && Opening(c.now, 10, e.fields["date"]) && Opening(c.now, 19, e.fields["timestamp"])
    {
      var k := p.key(e.name);
      LastEntryIsListed(p, base, k);
      FirstUrlIsListed(p, c.blocked, k);
      FirstUrlIsListed(p, c.manual, k);
    }
  }
}
