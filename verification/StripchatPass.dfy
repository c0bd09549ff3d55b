/** One bounded pass over the paged model feed: envelope validation, paging, and what a pass that
    succeeds has established. */
module StripchatPass {
  import opened Common
  import opened Names
  import opened Windows

  /** What the parsed JSON of one page may look like; None where a field has the wrong type. */
  datatype Item = NotAnObject | Object(username: Option<string>)

  datatype Requested = Absent | Malformed | Echo(limit: int)

  datatype Body =
    | OtherJson
    | Body(models: Option<seq<Item>>, count: Option<int>, total: Option<int>, requested: Requested, ttlIsNumber: bool)

  datatype Code =
    | SchemaDrift | InvalidUsername | DuplicateIdentityInPage | Transport
    | PageCap | TimeBudget | NoProgress | PrematureEmptyPage | PageLoop | IdentityCollision | ModelCap
    | EmptySnapshot | DuplicateRatioExceeded | ApiCancelled
    | ExcessiveQuarantine | SnapshotUnstable

  datatype Envelope = Envelope(models: seq<string>, total: nat)

  datatype Result<T> = Ok(value: T) | Err(code: Code)

  /** `lookup` gives the identity key of a username, None where the username is invalid. */
  datatype Limits = Limits(lookup: string -> Option<string>, pageSize: int, maxPages: int, maxModels: int,
      duplicateRatio: real)

  function Key(c: Limits, username: string): string {
    match c.lookup(username)
    case Some(k) => k
    case None => ""
  }

  function KeysOf(c: Limits, usernames: seq<string>): set<string> {
    set u | u in usernames :: Key(c, u)
  }

  // ---------------------------------------------------------------- one page

  /** Each model has a valid username, and no two share an identity. */
  predicate PageValid(c: Limits, models: seq<string>) {
    && (forall u :: u in models ==> u != "" && c.lookup(u).Some?)
    && (forall i, j :: 0 <= i < j < |models| ==> Key(c, models[i]) != Key(c, models[j]))
  }

  predicate Carries(items: seq<Item>, models: seq<string>) {
    |items| == |models| && forall i :: 0 <= i < |items| ==> items[i] == Object(Some(models[i]))
  }

  /** The page the body amounts to, when it is acceptable at all. */
  predicate Accepts(c: Limits, body: Body, page: Envelope) {
    && body.Body? && body.models.Some?
    && Carries(body.models.value, page.models) && PageValid(c, page.models)
    && body.count == Some(|page.models|)
    && body.total == Some(page.total)
    && (body.requested.Absent? || (body.requested == Echo(c.pageSize) && c.pageSize >= 0))
    && body.ttlIsNumber
  }

  predicate Refusal(code: Code) {
    code.SchemaDrift? || code.InvalidUsername? || code.DuplicateIdentityInPage?
  }

  /** `validate_envelope`: it returns the page exactly when the body is acceptable. */
  method ValidateEnvelope(c: Limits, body: Body) returns (r: Result<Envelope>)
    ensures r.Ok? ==> Accepts(c, body, r.value)
    ensures r.Err? ==> Refusal(r.code) && forall page :: !Accepts(c, body, page)
  {
    if body.OtherJson? || body.models.None? { return Err(SchemaDrift); }
    var items := body.models.value;
    if body.count.None? || body.count.value < 0 { return Err(SchemaDrift); }
    if body.count.value != |items| { return Err(SchemaDrift); }
    if body.total.None? || body.total.value < 0 { return Err(SchemaDrift); }
    if body.requested.Malformed? { return Err(SchemaDrift); }
    if body.requested.Echo? && body.requested.limit < 0 { return Err(SchemaDrift); }
    if body.requested.Echo? && body.requested.limit != c.pageSize { return Err(SchemaDrift); }
    if !body.ttlIsNumber { return Err(SchemaDrift); }
    var models := ValidateModels(c, items);
    if models.Err? { return Err(models.code); }
    r := Ok(Envelope(models.value, body.total.value));
  }

  method ValidateModels(c: Limits, items: seq<Item>) returns (r: Result<seq<string>>)
    ensures r.Ok? ==> Carries(items, r.value) && PageValid(c, r.value)
    ensures r.Err? ==> Refusal(r.code) && forall models :: !(Carries(items, models) && PageValid(c, models))
  {
    var models: seq<string> := [];
    var seen: map<string, string> := map[];
    for i := 0 to |items|
      invariant Carries(items[..i], models) && PageValid(c, models)
      invariant seen.Keys == KeysOf(c, models)
    {
      var item := items[i];
      if item.NotAnObject? { return Err(SchemaDrift); }
      InvalidItem(c, items, i);
      if item.username.None? || item.username.value == "" { return Err(InvalidUsername); }
      var username := item.username.value;
      if c.lookup(username).None? { return Err(InvalidUsername); }
      var key := Key(c, username);
      if key in seen {
        DuplicateItem(c, items, models, i);
        return Err(DuplicateIdentityInPage);
      }
      seen, models := seen[key := username], models + [username];
    }
    return Ok(models);
  }

  lemma {:induction false} InvalidItem(c: Limits, items: seq<Item>, i: nat)
    requires i < |items|
    ensures (|| items[i].NotAnObject? || items[i].username.None? || items[i].username.value == ""
             || c.lookup(items[i].username.value).None?) ==>
              forall models :: !(Carries(items, models) && PageValid(c, models))
  {
    forall models | Carries(items, models) && PageValid(c, models)
      ensures items[i].Object? && items[i].username.Some? && items[i].username.value != ""
        && c.lookup(items[i].username.value).Some?
    {
      assert models[i] in models;
    }
  }

  lemma {:induction false} DuplicateItem(c: Limits, items: seq<Item>, before: seq<string>, i: nat)
    requires i < |items| && items[i].Object? && items[i].username.Some?
    requires Carries(items[..i], before) && Key(c, items[i].username.value) in KeysOf(c, before)
    ensures forall models :: !(Carries(items, models) && PageValid(c, models))
  {
    var u :| u in before && Key(c, u) == Key(c, items[i].username.value);
    var j :| 0 <= j < |before| && before[j] == u;
    forall models | Carries(items, models) ensures !PageValid(c, models) {
      assert items[..i][j] == Object(Some(u)) && models[j] == u;
      assert Key(c, models[j]) == Key(c, models[i]);
    }
  }

  // ---------------------------------------------------------------- the records of a pass

  function Flat(pages: seq<seq<string>>): seq<string> {
    if pages == [] then [] else Flat(pages[..|pages| - 1]) + pages[|pages| - 1]
  }

  predicate OneSpelling(c: Limits, records: seq<string>) {
    forall u, v :: u in records && v in records && Key(c, u) == Key(c, v) ==> u == v
  }

  /** Conservation: every raw record is either the one accepted for its identity or a duplicate of it. */
  predicate Holds(c: Limits, records: seq<string>, accepted: map<string, string>, duplicates: nat) {
    && (forall u :: u in records ==> Key(c, u) in accepted && accepted[Key(c, u)] == u)
    && (forall k :: k in accepted ==> accepted[k] in records && Key(c, accepted[k]) == k)
    && |records| == |accepted| + duplicates
  }

  lemma {:induction false} HoldsMeans(c: Limits, records: seq<string>, accepted: map<string, string>, duplicates: nat)
    requires Holds(c, records, accepted, duplicates)
    ensures OneSpelling(c, records) && accepted.Keys == KeysOf(c, records)
  {
  }

  /** Merging one page's records. It stops exactly on an identity with two spellings. */
  method MergePage(c: Limits, ghost before: seq<string>, page: seq<string>, accepted0: map<string, string>,
      duplicates0: nat)
    returns (ok: bool, accepted: map<string, string>, duplicates: nat)
    requires Holds(c, before, accepted0, duplicates0)
    ensures ok ==> Holds(c, before + page, accepted, duplicates)
    ensures ok <==> OneSpelling(c, before + page)
  {
    accepted, duplicates := accepted0, duplicates0;
    for i := 0 to |page|
      invariant Holds(c, before + page[..i], accepted, duplicates)
    {
      var u := page[i];
      ghost var records := before + page[..i];
      assert page[..i + 1] == page[..i] + [u] && before + page[..i + 1] == records + [u];
      if Key(c, u) in accepted {
        var existing := accepted[Key(c, u)];
        if existing != u {
          assert existing in before + page && u in before + page;
          return false, accepted, duplicates;
        }
        duplicates := duplicates + 1;
      } else {
        accepted := accepted[Key(c, u) := u];
      }
    }
    assert page[..|page|] == page;
    HoldsMeans(c, before + page, accepted, duplicates);
    ok := true;
  }

  // ---------------------------------------------------------------- one pass

  /** What the world says around one page request: stop requested, budget spent, and the reply (None: no
      acceptable HTTP answer within the retries). */
  datatype Turn = Turn(cancelled: bool, late: bool, reply: Option<Body>)

  /** `models`: the accepted usernames in key order. */
  datatype Pass = Pass(index: nat, status: OutcomeStatus, models: seq<string>, pages: nat, raw: nat, duplicates: nat,
                       totals: seq<nat>, terminalEmpty: bool, code: Option<Code>)

  datatype Fingerprint = Ordered(keys: seq<string>) | Unordered(sorted: seq<string>)

  function PageKeys(c: Limits, page: seq<string>): seq<string> {
    seq(|page|, i requires 0 <= i < |page| => Key(c, page[i]))
  }

  lemma {:induction false} PageKeysAre(c: Limits, page: seq<string>)
    ensures forall k :: k in PageKeys(c, page) <==> k in KeysOf(c, page)
  {
    forall u | u in page ensures Key(c, u) in PageKeys(c, page) {
      var i :| 0 <= i < |page| && page[i] == u;
      assert PageKeys(c, page)[i] == Key(c, u);
    }
  }

  predicate Full(c: Limits, page: seq<string>) {
    |page| >= c.pageSize
  }

  /** No two full pages show the same identities. */
  predicate FullPagesDiffer(c: Limits, pages: seq<seq<string>>) {
    forall i, j :: 0 <= i < j < |pages| && Full(c, pages[i]) && Full(c, pages[j]) ==>
      KeysOf(c, pages[i]) != KeysOf(c, pages[j])
  }

  /** Some full page has this fingerprint. */
  ghost predicate Seen(c: Limits, pages: seq<seq<string>>, f: Fingerprint) {
    exists i :: 0 <= i < |pages| && Full(c, pages[i]) && Prints(c, pages[i], f)
  }

  predicate Prints(c: Limits, page: seq<string>, f: Fingerprint) {
    match f
    case Ordered(keys) => keys == PageKeys(c, page)
    case Unordered(sorted) => sorted == SortedNames(KeysOf(c, page))
  }

  ghost predicate Recorded(c: Limits, pages: seq<seq<string>>, prints: map<Fingerprint, nat>) {
    forall f :: f in prints <==> Seen(c, pages, f)
  }

  lemma {:induction false} SeenSnoc(c: Limits, pages: seq<seq<string>>, page: seq<string>, f: Fingerprint)
    ensures Seen(c, pages + [page], f) <==> Seen(c, pages, f) || (Full(c, page) && Prints(c, page, f))
  {
    var more := pages + [page];
    if Seen(c, pages, f) {
      var i :| 0 <= i < |pages| && Full(c, pages[i]) && Prints(c, pages[i], f);
      assert more[i] == pages[i];
    }
    if Full(c, page) && Prints(c, page, f) { assert more[|pages|] == page; }
  }

  /** A full page with a known fingerprint repeats the identities of an earlier full page. */
  lemma {:induction false} SeenRepeats(c: Limits, pages: seq<seq<string>>, page: seq<string>, f: Fingerprint)
    requires Full(c, page) && Prints(c, page, f) && Seen(c, pages, f)
    ensures !FullPagesDiffer(c, pages + [page])
  {
    var more := pages + [page];
    var i :| 0 <= i < |pages| && Full(c, pages[i]) && Prints(c, pages[i], f);
    match f {
      case Ordered(_) => SameKeysInOrder(c, pages[i], page);
      case Unordered(_) => SortedNamesInjective(KeysOf(c, pages[i]), KeysOf(c, page));
    }
    assert more[i] == pages[i] && more[|pages|] == page;
  }

  lemma {:induction false} UnseenDiffers(c: Limits, pages: seq<seq<string>>, page: seq<string>)
    requires FullPagesDiffer(c, pages)
    requires Full(c, page) ==> !Seen(c, pages, Unordered(SortedNames(KeysOf(c, page))))
    ensures FullPagesDiffer(c, pages + [page])
  {
    var more := pages + [page];
    forall i, j | 0 <= i < j < |more| && Full(c, more[i]) && Full(c, more[j])
      ensures KeysOf(c, more[i]) != KeysOf(c, more[j])
    {
      if j == |pages| {
        assert !Prints(c, pages[i], Unordered(SortedNames(KeysOf(c, page))));
      }
    }
  }

  /** The loop test for full pages: a page loop is reported exactly when an earlier full page showed the
      same identities, in whatever order. */
  method CheckPageLoop(c: Limits, ghost pages: seq<seq<string>>, page: seq<string>, prints0: map<Fingerprint, nat>,
      offset: nat)
    returns (loop: bool, prints: map<Fingerprint, nat>)
    requires Recorded(c, pages, prints0) && FullPagesDiffer(c, pages)
    requires forall f :: f in prints0 ==> prints0[f] < offset
    ensures loop <==> !FullPagesDiffer(c, pages + [page])
    ensures !loop ==> Recorded(c, pages + [page], prints)
    ensures !loop ==> forall f :: f in prints ==> prints[f] <= offset
  {
    hide FullPagesDiffer, SortedNames, KeysOf, PageKeys, Seen;
    prints := prints0;
    if |page| < c.pageSize {
      UnseenDiffers(c, pages, page);
      forall f { SeenSnoc(c, pages, page, f); }
      return false, prints;
    }
    var ordered, unordered := Ordered(PageKeys(c, page)), Unordered(SortedNames(KeysOf(c, page)));
    if ordered in prints && prints[ordered] != offset {
      SeenRepeats(c, pages, page, ordered);
      return true, prints;
    }
    prints := prints[ordered := offset];
    if unordered in prints && prints[unordered] != offset {
      SeenRepeats(c, pages, page, unordered);
      return true, prints;
    }
    prints := prints[unordered := offset];
    UnseenDiffers(c, pages, page);
    forall f { SeenSnoc(c, pages, page, f); }
    loop := false;
  }

  lemma {:induction false} SameKeysInOrder(c: Limits, a: seq<string>, b: seq<string>)
    requires PageKeys(c, a) == PageKeys(c, b)
    ensures KeysOf(c, a) == KeysOf(c, b)
  {
    PageKeysAre(c, a);
    PageKeysAre(c, b);
    forall k ensures k in KeysOf(c, a) <==> k in KeysOf(c, b) {}
  }

  /** Requests are answered by pass, page number and offset. */
  type Feed = (nat, nat, nat) -> Turn

  /** The pages a pass read: each is the validated answer to a request at the offset just after all
      earlier records, and only the last may be empty. */
  ghost predicate Trace(c: Limits, feed: Feed, index: nat, pages: seq<seq<string>>, totals: seq<nat>) {
    && |pages| == |totals|
    && (forall k :: 0 <= k < |pages| ==> Answered(c, feed(index, k, |Flat(pages[..k])|), pages[k], totals[k]))
    && (forall k :: 0 <= k < |pages| - 1 ==> pages[k] != [])
  }

  predicate Answered(c: Limits, turn: Turn, page: seq<string>, total: nat) {
    !turn.cancelled && !turn.late && turn.reply.Some? && Accepts(c, turn.reply.value, Envelope(page, total))
  }

  predicate DuplicatesExceed(c: Limits, duplicates: int, raw: nat) {
    raw > 0 && Ratio(duplicates, raw) > c.duplicateRatio
  }

  lemma {:induction false} DuplicatesExceedMeans(c: Limits, duplicates: int, raw: nat)
    ensures DuplicatesExceed(c, duplicates, raw) <==> raw > 0 && duplicates as real > c.duplicateRatio * raw as real
  {
    if raw > 0 { RatioAtMost(duplicates, raw, c.duplicateRatio); }
  }

  /** A complete reading of the feed: a terminal empty page no earlier than the reported total allows. */
  ghost predicate Terminated(c: Limits, pages: seq<seq<string>>, totals: seq<nat>) {
    && pages != [] && |pages| == |totals| && pages[|pages| - 1] == []
    && |Flat(pages)| + c.pageSize >= totals[|totals| - 1]
  }

  /** The page a pass would read first. */
  ghost predicate OpensWith(c: Limits, feed: Feed, index: nat, page: seq<string>) {
    c.maxPages > 0 && exists total :: Answered(c, feed(index, 0, 0), page, total)
  }

  /** The identities on the first page of a pass, None where it reads none. */
  ghost predicate FirstPage(c: Limits, feed: Feed, index: nat, first: Option<seq<string>>) {
    match first
    case Some(keys) => exists page :: OpensWith(c, feed, index, page) && keys == PageKeys(c, page)
    case None => forall page :: !OpensWith(c, feed, index, page)
  }

  /** What success of a pass establishes. */
  ghost predicate PassComplete(c: Limits, p: Pass, pages: seq<seq<string>>) {
    var records := Flat(pages);
    && p.terminalEmpty && Terminated(c, pages, p.totals)
    && FullPagesDiffer(c, pages[..|pages| - 1])
    && OneSpelling(c, records)
    && ModelsOf(c, records, p.models)
    && 0 < |p.models| <= c.maxModels
    && |records| == p.raw == |p.models| + p.duplicates
    && !DuplicatesExceed(c, p.duplicates, p.raw)
  }

  /** One username per identity, in key order. */
  ghost predicate ModelsOf(c: Limits, records: seq<string>, models: seq<string>) {
    && |models| == |KeysOf(c, records)|
    && forall i :: 0 <= i < |models| ==> models[i] in records && Key(c, models[i]) == SortedNames(KeysOf(c, records))[i]
  }

  /** Why a pass may fail, code by code; the feed's next turn is the one it did not get through. */
  ghost predicate Justified(c: Limits, feed: Feed, index: nat, pages: seq<seq<string>>, totals: seq<nat>, code: Code) {
    var next := feed(index, |pages|, |Flat(pages)|);
    match code
    case ApiCancelled => next.cancelled
    case PageCap => |pages| >= c.maxPages
    case TimeBudget => next.late
    case Transport => next.reply.None?
    case SchemaDrift | InvalidUsername | DuplicateIdentityInPage =>
      next.reply.Some? && forall page :: !Accepts(c, next.reply.value, page)
    case PrematureEmptyPage => pages != [] && pages[|pages| - 1] == [] && !Terminated(c, pages, totals)
    case PageLoop => !FullPagesDiffer(c, pages)
    case IdentityCollision => !OneSpelling(c, Flat(pages))
    case ModelCap => |KeysOf(c, Flat(pages))| > c.maxModels
    case EmptySnapshot => Flat(pages) == []
    case DuplicateRatioExceeded => DuplicatesExceed(c, |Flat(pages)| - |KeysOf(c, Flat(pages))|, |Flat(pages)|)
    case _ => false
  }

  ghost predicate PassSound(c: Limits, feed: Feed, p: Pass, pages: seq<seq<string>>) {
    && Trace(c, feed, p.index, pages, p.totals) && p.pages == |pages|
    && (c.maxPages >= 0 ==> p.pages <= c.maxPages)
    && (p.status.SUCCEEDED? <==> p.code.None?)
    && (p.status.SUCCEEDED? ==> PassComplete(c, p, pages))
    && (!p.status.SUCCEEDED? ==> p.models == [] && Justified(c, feed, p.index, pages, p.totals, p.code.value))
    && (p.status.CANCELLED? <==> p.code == Some(ApiCancelled))
    && (p.status.SUCCEEDED? || p.status.CANCELLED? || p.status.INCOMPLETE?)
  }

  // ---------------------------------------------------------------- reading pages

  /** The state between two requests. */
  ghost predicate Reading(c: Limits, feed: Feed, index: nat, pages: seq<seq<string>>, totals: seq<nat>, offset: nat,
                          offsetsSeen: set<nat>, prints: map<Fingerprint, nat>) {
    && Trace(c, feed, index, pages, totals) && [] !in pages
    && offset == |Flat(pages)|
    && (forall o :: o in offsetsSeen ==> o < offset)
    && Recorded(c, pages, prints) && FullPagesDiffer(c, pages)
    && (forall f :: f in prints ==> prints[f] < offset)
  }

  lemma {:induction false} TraceSnoc(c: Limits, feed: Feed, index: nat, pages: seq<seq<string>>, totals: seq<nat>,
      page: seq<string>, total: nat)
    requires Trace(c, feed, index, pages, totals) && [] !in pages
    requires Answered(c, feed(index, |pages|, |Flat(pages)|), page, total)
    ensures Trace(c, feed, index, pages + [page], totals + [total])
    ensures Flat(pages + [page]) == Flat(pages) + page
    ensures page != [] ==> [] !in pages + [page]
  {
    var more := pages + [page];
    assert more[..|pages|] == pages;
    forall k | 0 <= k < |more|
      ensures Answered(c, feed(index, k, |Flat(more[..k])|), more[k], (totals + [total])[k])
      ensures k < |pages| ==> more[k] != []
    {
      if k < |pages| { assert more[..k] == pages[..k] && pages[k] in pages; }
    }
  }

  /** `_fetch_page`, with its retries folded into the reply. */
  method FetchPage(c: Limits, turn: Turn) returns (r: Result<Envelope>)
    ensures r.Ok? ==> turn.reply.Some? && Accepts(c, turn.reply.value, r.value)
    ensures r.Err? ==> if r.code.Transport? then turn.reply.None? else
                         Refusal(r.code) && turn.reply.Some? && forall page :: !Accepts(c, turn.reply.value, page)
  {
    if turn.reply.None? { return Err(Transport); }
    r := ValidateEnvelope(c, turn.reply.value);
  }

  lemma {:induction false} NothingRead(c: Limits, feed: Feed, index: nat)
    ensures Trace(c, feed, index, [], []) && Holds(c, Flat([]), map[], 0) && FullPagesDiffer(c, [])
    ensures Reading(c, feed, index, [], [], 0, {}, map[])
  {
  }

  lemma {:induction false} ReadingMeans(c: Limits, feed: Feed, index: nat, pages: seq<seq<string>>, totals: seq<nat>,
      offset: nat,
                                        offsetsSeen: set<nat>, prints: map<Fingerprint, nat>)
    requires Reading(c, feed, index, pages, totals, offset, offsetsSeen, prints)
    ensures Trace(c, feed, index, pages, totals) && [] !in pages && offset == |Flat(pages)|
    ensures offset !in offsetsSeen && forall o :: o in offsetsSeen ==> o < offset
    ensures Recorded(c, pages, prints) && FullPagesDiffer(c, pages) && forall f :: f in prints ==> prints[f] < offset
  {
    hide Trace, Recorded, FullPagesDiffer;
  }

  lemma {:induction false} NextReading(c: Limits, feed: Feed, index: nat, pages: seq<seq<string>>, page: seq<string>,
      totals: seq<nat>, offset: nat,
                                       offsetsSeen: set<nat>, prints: map<Fingerprint, nat>)
    requires page != [] && [] !in pages + [page] && Trace(c, feed, index, pages + [page], totals)
    requires Flat(pages + [page]) == Flat(pages) + page && offset == |Flat(pages)| + |page|
    requires forall o :: o in offsetsSeen ==> o <= |Flat(pages)|
    requires Recorded(c, pages + [page], prints) && FullPagesDiffer(c, pages + [page])
    requires forall f :: f in prints ==> prints[f] <= |Flat(pages)|
    ensures Reading(c, feed, index, pages + [page], totals, offset, offsetsSeen, prints)
  {
    hide Trace, Recorded, FullPagesDiffer, Flat;
  }

  /** The records of a non-empty page: loop test, merge, and the cap on models. */
  method TakePage(c: Limits, ghost pages: seq<seq<string>>, page: seq<string>, prints0: map<Fingerprint, nat>,
      offset: nat,
                  accepted0: map<string, string>, duplicates0: nat)
    returns (code: Option<Code>, prints: map<Fingerprint, nat>, accepted: map<string, string>, duplicates: nat)
    requires Recorded(c, pages, prints0) && FullPagesDiffer(c, pages)
    requires forall f :: f in prints0 ==> prints0[f] < offset
    requires Holds(c, Flat(pages), accepted0, duplicates0)
    ensures code.None? ==> Recorded(c, pages + [page], prints) && FullPagesDiffer(c, pages + [page])
                           && Holds(c, Flat(pages) + page, accepted, duplicates) && |accepted| <= c.maxModels
    ensures code.None? ==> forall f :: f in prints ==> prints[f] <= offset
    ensures match code
            case None => true
            case Some(PageLoop) => !FullPagesDiffer(c, pages + [page])
            case Some(IdentityCollision) => !OneSpelling(c, Flat(pages) + page)
            case Some(ModelCap) => |KeysOf(c, Flat(pages) + page)| > c.maxModels
            case _ => false
  {
    hide Holds, Recorded, FullPagesDiffer, OneSpelling, KeysOf;
    code, accepted, duplicates := None, accepted0, duplicates0;
    var loop, ok;
    loop, prints := CheckPageLoop(c, pages, page, prints0, offset);
    if loop { code := Some(PageLoop); return; }
    ok, accepted, duplicates := MergePage(c, Flat(pages), page, accepted0, duplicates0);
    if !ok { code := Some(IdentityCollision); return; }
    HoldsMeans(c, Flat(pages) + page, accepted, duplicates);
    if |accepted| > c.maxModels {
      assert |accepted.Keys| == |accepted|;
      code := Some(ModelCap);
    }
  }

  /** What the first request of a pass settles. */
  lemma {:induction false} FirstPageIs(c: Limits, feed: Feed, index: nat, reply: Result<Envelope>)
    ensures reply.Ok? && c.maxPages > 0
            && Answered(c, feed(index, 0, 0), reply.value.models, reply.value.total) ==>
              FirstPage(c, feed, index, Some(PageKeys(c, reply.value.models)))
    ensures c.maxPages <= 0 || (forall page, total :: !Answered(c, feed(index, 0, 0), page, total)) ==>
              FirstPage(c, feed, index, None)
  {
    hide Answered;
  }

  /** The checks before a request, and the request. */
  method NextPage(c: Limits, feed: Feed, index: nat, ghost pages: seq<seq<string>>, ghost totals: seq<nat>, count: nat,
      offset: nat,
                  repeated: bool)
    returns (r: Result<Envelope>)
    requires count == |pages| && offset == |Flat(pages)|
    ensures r.Ok? ==>
      Answered(c, feed(index, |pages|, |Flat(pages)|), r.value.models, r.value.total) && count < c.maxPages
    ensures r.Err? ==> !r.code.EmptySnapshot? && !r.code.DuplicateRatioExceeded?
    ensures r.Err? ==> if r.code.NoProgress? then repeated else Justified(c, feed, index, pages, totals, r.code)
    ensures pages == [] && !repeated ==>
      FirstPage(c, feed, index, if r.Ok? then Some(PageKeys(c, r.value.models)) else None)
  {
    hide Accepts, FullPagesDiffer, OneSpelling, KeysOf, Flat, Terminated, DuplicatesExceed, FirstPage;
    var turn := feed(index, count, offset);
    assert pages == [] ==> turn == feed(index, 0, 0) by { NoRecords(); }
    FirstPageIs(c, feed, index, Err(ApiCancelled));
    if turn.cancelled { return Err(ApiCancelled); }
    if count >= c.maxPages { return Err(PageCap); }
    if turn.late { return Err(TimeBudget); }
    if repeated { return Err(NoProgress); }
    r := FetchPage(c, turn);
    FirstPageIs(c, feed, index, r);
  }

  lemma {:induction false} NoRecords()
    ensures Flat([]) == []
  {
  }

  datatype Read = Read(code: Option<Code>, pages: nat, raw: nat, duplicates: nat, accepted: map<string, string>,
                       totals: seq<nat>, first: Option<seq<string>>)

  /** The paging loop, up to the terminal page or the first reason to stop. */
  method ReadPages(c: Limits, feed: Feed, index: nat) returns (r: Read, ghost pages: seq<seq<string>>)
    ensures Trace(c, feed, index, pages, r.totals) && r.pages == |pages| && (c.maxPages >= 0 ==> r.pages <= c.maxPages)
    ensures r.code.None? ==> Terminated(c, pages, r.totals) && FullPagesDiffer(c, pages[..|pages| - 1])
                             && Holds(c, Flat(pages), r.accepted, r.duplicates) && r.raw == |Flat(pages)|
                             && (r.accepted != map[] ==> |r.accepted| <= c.maxModels)
    ensures r.code.Some? ==> Justified(c, feed, index, pages, r.totals, r.code.value)
                             && !r.code.value.EmptySnapshot? && !r.code.value.DuplicateRatioExceeded?
    ensures FirstPage(c, feed, index, r.first)
  {
    NothingRead(c, feed, index);
    hide Trace, Holds, Recorded, FullPagesDiffer, OneSpelling, KeysOf, Accepts, PageKeys, Answered, Justified,
      DuplicatesExceed, Reading, Terminated, Flat, FirstPage;
    var offsetsSeen: set<nat> := {};
    var prints: map<Fingerprint, nat> := map[];
    var offset: nat := 0;
    var duplicates: nat, accepted: map<string, string>, totals: seq<nat> := 0, map[], [];
    var first: Option<seq<string>> := None;
    pages := [];
    while true
      invariant Reading(c, feed, index, pages, totals, offset, offsetsSeen, prints)
      invariant Holds(c, Flat(pages), accepted, duplicates) && |totals| == |pages|
      invariant accepted != map[] ==> |accepted| <= c.maxModels
      invariant c.maxPages >= 0 ==> |pages| <= c.maxPages
      invariant if offset == 0 then pages == [] && offsetsSeen == {} else FirstPage(c, feed, index, first)
      invariant offset == 0 ==> first == None
      decreases c.maxPages - |totals|
    {
      ReadingMeans(c, feed, index, pages, totals, offset, offsetsSeen, prints);
      var reply := NextPage(c, feed, index, pages, totals, |totals|, offset, offset in offsetsSeen);
      if reply.Err? {
        r := Read(Some(reply.code), |totals|, offset, duplicates, accepted, totals, first);
        return;
      }
      offsetsSeen := offsetsSeen + {offset};
      var page := reply.value.models;
      if offset == 0 { first := Some(PageKeys(c, page)); }
      TraceSnoc(c, feed, index, pages, totals, page, reply.value.total);
      var code, prints', accepted', duplicates' := None, prints, accepted, duplicates;
      if page != [] {
        code, prints', accepted', duplicates' := TakePage(c, pages, page, prints, offset, accepted, duplicates);
      }
      ghost var before := pages;
      pages, totals := pages + [page], totals + [reply.value.total];
      if page == [] || code.Some? {
        LastPage(c, feed, index, before, page, totals, code);
        if page == [] && offset + c.pageSize < reply.value.total { code := Some(PrematureEmptyPage); }
        r := Read(code, |totals|, offset, duplicates, accepted, totals, first);
        return;
      }
      prints, accepted, duplicates, offset := prints', accepted', duplicates', offset + |page|;
      NextReading(c, feed, index, before, page, totals, offset, offsetsSeen, prints);
    }
  }

  /** What the last page of a pass establishes. */
  lemma {:induction false} LastPage(c: Limits, feed: Feed, index: nat, before: seq<seq<string>>, page: seq<string>,
      totals: seq<nat>, code: Option<Code>)
    requires |totals| == |before| + 1 && Flat(before + [page]) == Flat(before) + page
    requires match code
             case None => page == []
             case Some(PageLoop) => !FullPagesDiffer(c, before + [page])
             case Some(IdentityCollision) => !OneSpelling(c, Flat(before) + page)
             case Some(ModelCap) => |KeysOf(c, Flat(before) + page)| > c.maxModels
             case _ => false
    ensures code.Some? ==> Justified(c, feed, index, before + [page], totals, code.value)
    ensures code.None? ==>
      (Terminated(c, before + [page], totals) <==> |Flat(before)| + c.pageSize >= totals[|totals| - 1])
    ensures code.None? && |Flat(before)| + c.pageSize < totals[|totals| - 1] ==>
              Justified(c, feed, index, before + [page], totals, PrematureEmptyPage)
    ensures (before + [page])[..|before|] == before && (page == [] ==> Flat(before + [page]) == Flat(before))
  {
    hide FullPagesDiffer, OneSpelling, KeysOf, Flat;
  }
}
