/** Compiling the master list from session folders: when a room was first discovered, and whether it
    still awaits verification. */
module Discovery {
  import opened Common
  import opened Names

  /** The text of a calendar date, which is neither of the two words used in its place. */
  type Date = d: string | d != "Unknown" && d != "Manual"

  /** The text of a point in time. The source treats an empty one as absent. */
  type Time = t: string | t != "" witness "T"

  /** A readable session folder. `date` is None where the folder name carries no date; `pending` where
      its list was never verified. */
  datatype Session = Session(date: Option<Date>, number: int, timestamp: Time, pending: bool, lines: seq<string>)

  datatype Info = Info(date: Option<Date>, session: int, timestamp: Option<Time>, pending: bool)

  /** An entry of the list saved by an earlier compilation, with the fields it carries. Its date is
      text: a date, "Unknown" or "Manual". */
  datatype Known = Known(date: Option<string>, session: Option<int>, timestamp: Option<Time>)

  /** The clock as one compilation reads it. */
  datatype Now = Now(compiledAt: Time, today: Date, todayAt: Time)

  /** Dates order as text, then session numbers. */
  predicate Before(d: string, n: int, e: string, m: int) {
    Lt(d, e) || (d == e && n < m)
  }

  // ---------------------------------------------------------------- what a list of sessions says

  /** The sessions listing a room, in the order they are visited. */
  function Listing(sessions: seq<Session>, room: string): seq<Session> {
    if sessions == [] then []
    else
      var last := sessions[|sessions| - 1];
      Listing(sessions[..|sessions| - 1], room) + if room in last.lines then [last] else []
  }

  ghost predicate AnyDated(sessions: seq<Session>) {
    exists s :: s in sessions && s.date.Some?
  }

  /** The recorded date and number are those of one listing session: the least dated one, or with none
      dated the first visited. */
  ghost predicate Discovered(sessions: seq<Session>, i: Info) {
    && sessions != []
    && (exists s :: s in sessions && s.date == i.date && s.number == i.session)
    && (AnyDated(sessions) <==> i.date.Some?)
    && (forall s :: s in sessions && s.date.Some? ==> !Before(s.date.value, s.number, i.date.value, i.session))
    && (!AnyDated(sessions) ==> i.session == sessions[0].number)
  }

  /** Pending only while no listing session was verified. */
  ghost predicate Awaiting(sessions: seq<Session>) {
    forall s :: s in sessions ==> s.pending
  }

  /** The recorded time is that of a session carrying the recorded date and number. */
  ghost predicate Timed(sessions: seq<Session>, i: Info) {
    exists s :: s in sessions && s.date == i.date && s.number == i.session && i.timestamp == Some(s.timestamp)
  }

  ghost predicate Fits(sessions: seq<Session>, i: Info) {
    Discovered(sessions, i) && Timed(sessions, i) && (i.pending <==> Awaiting(sessions))
  }

  /** The discovery is a function of the listing sessions, whatever the order they are visited in,
      exactly when one of them is dated or the first visited ones carry the same number. */
  lemma {:induction false} OrderIndependent(a: seq<Session>, b: seq<Session>, i: Info, j: Info)
    requires Fits(a, i) && Fits(b, j) && multiset(a) == multiset(b)
    ensures i.pending == j.pending && i.date == j.date
    ensures i.session == j.session <==> AnyDated(a) || a[0].number == b[0].number
  {
    forall s ensures s in a <==> s in b { assert s in multiset(a) <==> s in multiset(b); }
    assert AnyDated(a) <==> AnyDated(b);
    if AnyDated(a) {
      var s :| s in a && s.date == i.date && s.number == i.session;
      var t :| t in b && t.date == j.date && t.number == j.session;
      assert s in b && t in a;
      LtTrichotomy(i.date.value, j.date.value);
    }
  }

  // ---------------------------------------------------------------- one more listing

  /** The branch of the loop that decides whether a listing is an earlier discovery. */
  predicate IsEarlier(s: Session, i: Info) {
    s.date.Some? && (i.date.None? || Before(s.date.value, s.number, i.date.value, i.session))
  }

  function Updated(s: Session, i: Info): Info {
    var pending := i.pending && s.pending;
    if IsEarlier(s, i) then Info(s.date, s.number, Some(s.timestamp), pending) else i.(pending := pending)
  }

  lemma {:induction false} FirstListing(s: Session)
    ensures Fits([s], Info(s.date, s.number, Some(s.timestamp), s.pending))
  {
    if s.date.Some? { LtTrichotomy(s.date.value, s.date.value); }
    assert s in [s];
  }

  lemma {:induction false} NextListing(sessions: seq<Session>, i: Info, s: Session)
    requires Fits(sessions, i)
    ensures Fits(sessions + [s], Updated(s, i))
  {
    var more, u := sessions + [s], Updated(s, i);
    assert forall t :: t in more <==> t in sessions || t == s;
    assert more[0] == sessions[0];
    assert s in more;
    forall t | t in more && t.date.Some?
      ensures u.date.Some? && !Before(t.date.value, t.number, u.date.value, u.session)
    {
      if i.date.Some? && s.date.Some? {
        LtTrichotomy(t.date.value, s.date.value);
        LtTrichotomy(t.date.value, i.date.value);
        LtTrichotomy(s.date.value, i.date.value);
        if Lt(t.date.value, s.date.value) && Lt(s.date.value, i.date.value) {
          LtTransitive(t.date.value, s.date.value, i.date.value);
        }
      } else if s.date.Some? {
        LtTrichotomy(s.date.value, s.date.value);
      }
    }
  }

  /** A room listed twice in one file changes nothing the second time. */
  lemma {:induction false} RepeatedListing(sessions: seq<Session>, i: Info, s: Session)
    requires Fits(sessions, i) && s in sessions
    ensures Updated(s, i) == i
  {
  }

  // ---------------------------------------------------------------- any order of the folders

  lemma {:induction false} ListingCounts(sessions: seq<Session>, room: string, s: Session)
    ensures multiset(Listing(sessions, room))[s] == if room in s.lines then multiset(sessions)[s] else 0
  {
    if sessions != [] {
      var n := |sessions| - 1;
      assert sessions == sessions[..n] + [sessions[n]];
      ListingCounts(sessions[..n], room, s);
    }
  }

  /** Visiting the same folders in another order leaves every room's date and pending mark alone, and its
      session number too exactly when some folder listing it is dated or both orders start the room at
      the same number. */
  lemma {:induction false} AnyOrder(x: seq<Session>, y: seq<Session>, blacklist: set<string>, a: map<string, Info>,
      b: map<string, Info>, room: string)
    requires multiset(x) == multiset(y) && Compiled(x, blacklist, a) && Compiled(y, blacklist, b)
    ensures room in a <==> room in b
    ensures room in a ==> a[room].date == b[room].date && a[room].pending == b[room].pending
    ensures room in a ==> (a[room].session == b[room].session
                           <==> AnyDated(Listing(x, room)) || Listing(x, room)[0].number == Listing(y, room)[0].number)
  {
    forall s ensures multiset(Listing(x, room))[s] == multiset(Listing(y, room))[s] {
      ListingCounts(x, room, s);
      ListingCounts(y, room, s);
    }
    assert multiset(Listing(x, room)) == multiset(Listing(y, room));
    assert |Listing(x, room)| == |multiset(Listing(x, room))| == |Listing(y, room)|;
    if room in a { OrderIndependent(Listing(x, room), Listing(y, room), a[room], b[room]); }
  }

  /** With undated folders only, the order does show: the first visited number stays. */
  lemma {:induction false} UndatedOrderShows(a: map<string, Info>, b: map<string, Info>)
    requires Compiled([Undated(1), Undated(2)], {}, a) && Compiled([Undated(2), Undated(1)], {}, b)
    ensures a["r"].session == 1 && b["r"].session == 2
  {
    UndatedListing(1, 2);
    UndatedListing(2, 1);
    hide Listing;
    assert "r" in a && "r" in b;
  }

  lemma {:induction false} UndatedListing(p: int, q: int)
    ensures Listing([Undated(p), Undated(q)], "r") == [Undated(p), Undated(q)] && !AnyDated([Undated(p), Undated(q)])
  {
    var one := [Undated(p)];
    var two := one + [Undated(q)];
    assert two[..1] == one && one[..0] == [];
    assert "r" in Undated(p).lines && "r" in Undated(q).lines;
    assert Listing(one, "r") == Listing([], "r") + one;
    assert Listing(two, "r") == Listing(one, "r") + [Undated(q)];
  }

  function Undated(number: int): Session {
    Session(None, number, "t", false, ["r"])
  }

  // ---------------------------------------------------------------- the compilation

  ghost predicate Compiled(sessions: seq<Session>, blacklist: set<string>, info: map<string, Info>) {
    forall room :: (room in info <==> room !in blacklist && Listing(sessions, room) != [])
                   && (room in info ==> Fits(Listing(sessions, room), info[room]))
  }

  /** The state inside one session's file, some of its lines read. */
  ghost predicate Reading(sessions: seq<Session>, s: Session, read: seq<string>, blacklist: set<string>,
      info: map<string, Info>)
  {
    forall room :: (room in info <==> room !in blacklist && (Listing(sessions, room) != [] || room in read))
                   && (room in info ==> Fits(Listing(sessions, room) + if room in read then [s] else [], info[room]))
  }

  lemma {:induction false} ReadLine(sessions: seq<Session>, s: Session, read: seq<string>, blacklist: set<string>,
      info: map<string, Info>, line: string)
    requires Reading(sessions, s, read, blacklist, info)
    ensures line in blacklist ==> Reading(sessions, s, read + [line], blacklist, info)
    ensures line !in blacklist && line !in info ==>
              Reading(sessions, s, read + [line], blacklist,
                info[line := Info(s.date, s.number, Some(s.timestamp), s.pending)])
    ensures line in info ==> Reading(sessions, s, read + [line], blacklist, info[line := Updated(s, info[line])])
  {
    hide Fits, Listing;
    FirstListing(s);
    var listing := Listing(sessions, line);
    assert listing + [] == listing && [] + [s] == [s];
    if line in info {
      if line in read {
        RepeatedListing(listing + [s], info[line], s);
      } else {
        NextListing(listing, info[line], s);
      }
    }
  }

  lemma {:induction false} ReadAll(sessions: seq<Session>, s: Session, blacklist: set<string>, info: map<string, Info>)
    ensures Compiled(sessions, blacklist, info) <==> Reading(sessions, s, [], blacklist, info)
    ensures Reading(sessions, s, s.lines, blacklist, info) ==> Compiled(sessions + [s], blacklist, info)
  {
    hide Fits;
    assert (sessions + [s])[..|sessions|] == sessions;
    assert forall room :: Listing(sessions, room) + [] == Listing(sessions, room);
  }

  method CompileSession(ghost sessions: seq<Session>, s: Session, blacklist: set<string>, info0: map<string, Info>)
    returns (info: map<string, Info>)
    requires Compiled(sessions, blacklist, info0)
    ensures Compiled(sessions + [s], blacklist, info)
  {
    hide Compiled, Reading;
    info := info0;
    ReadAll(sessions, s, blacklist, info);
    for i := 0 to |s.lines|
      invariant Reading(sessions, s, s.lines[..i], blacklist, info)
    {
      var line := s.lines[i];
      assert s.lines[..i + 1] == s.lines[..i] + [line];
      ReadLine(sessions, s, s.lines[..i], blacklist, info, line);
      if line in blacklist { continue; }
      if line !in info {
        info := info[line := Info(s.date, s.number, Some(s.timestamp), s.pending)];
        continue;
      }
      var curr := info[line].(pending := info[line].pending && s.pending);
      var isEarlier := false;
      if s.date.Some? {
        if curr.date.None? {
          isEarlier := true;
        } else if Lt(s.date.value, curr.date.value) {
          isEarlier := true;
        } else if s.date == curr.date && s.number < curr.session {
          isEarlier := true;
        }
      }
      if isEarlier { curr := curr.(date := s.date, session := s.number, timestamp := Some(s.timestamp)); }
      info := info[line := curr];
    }
    assert s.lines[..|s.lines|] == s.lines;
    ReadAll(sessions, s, blacklist, info);
  }

  /** The merge loop of `compile_master_list`. */
  method MergeSessions(sessions: seq<Session>, blacklist: set<string>) returns (info: map<string, Info>)
    ensures Compiled(sessions, blacklist, info)
  {
    info := map[];
    for i := 0 to |sessions|
      invariant Compiled(sessions[..i], blacklist, info)
    {
      assert sessions[..i + 1] == sessions[..i] + [sessions[i]];
      info := CompileSession(sessions[..i], sessions[i], blacklist, info);
    }
    assert sessions[..|sessions|] == sessions;
  }

  // ---------------------------------------------------------------- times, manual rooms, and saving

  function Lookup(existing: map<string, Known>, room: string): Option<Known> {
    if room in existing then Some(existing[room]) else None
  }

  /** What the finished list says of a room some session lists: its discovery, and the time the room
      was first entered into the list, if that is still known. */
  ghost predicate Listed(listing: seq<Session>, manual: bool, known: Option<Known>, now: Now, i: Info) {
    && Discovered(listing, i)
    && (i.pending <==> !manual && Awaiting(listing))
    && match known {
         case None => i.timestamp == Some(now.compiledAt)
         case Some(k) => if k.timestamp.Some? then i.timestamp == k.timestamp else Timed(listing, i)
       }
  }

  /** What it says of a room only the manual list names: what was saved, dated today where nothing was
      or only "Manual". */
  ghost predicate ManualOnly(known: Option<Known>, now: Now, i: Info) {
    && !i.pending
    && i.session == (if known.Some? && known.value.session.Some? then known.value.session.value else 0)
    && if known.None? || known.value.date in {None, Some("Manual")}
       then i.date == Some(now.today) && i.timestamp == Some(now.todayAt)
       else Text(i.date) == known.value.date.value && i.timestamp == known.value.timestamp
  }

  ghost predicate MasterList(
    sessions: seq<Session>, blacklist: set<string>, manual: seq<string>, existing: map<string, Known>,
    now: Now, info: map<string, Info>)
  {
    forall room ::
      && (room in info <==> room !in blacklist && (Listing(sessions, room) != [] || room in manual))
      && (room in info ==>
            if Listing(sessions, room) != []
            then Listed(Listing(sessions, room), room in manual, Lookup(existing, room), now, info[room])
            else ManualOnly(Lookup(existing, room), now, info[room]))
  }

  function Text(date: Option<Date>): string {
    if date.Some? then date.value else "Unknown"
  }

  /** What a compilation leaves in the file for the next one to read. */
  function Saved(info: map<string, Info>): map<string, Known> {
    map room | room in info ::
      Known(Some(Text(info[room].date)), Some(info[room].session), info[room].timestamp)
  }

  /** The loop giving every listed room its time. */
  method StampTimes(merged: map<string, Info>, existing: map<string, Known>, now: Now)
    returns (info: map<string, Info>)
    ensures info.Keys == merged.Keys
    ensures forall room :: room in merged ==>
      info[room] == merged[room].(timestamp :=
        if room !in existing then Some(now.compiledAt)
        else if existing[room].timestamp.Some? then existing[room].timestamp
        else merged[room].timestamp)
  {
    info := merged;
    var todo := merged.Keys;
    while todo != {}
      invariant info.Keys == merged.Keys
      invariant forall room :: room in todo ==> room in merged && info[room] == merged[room]
      invariant forall room :: room in merged && room !in todo ==>
        info[room] == merged[room].(timestamp :=
          if room !in existing then Some(now.compiledAt)
          else if existing[room].timestamp.Some? then existing[room].timestamp
          else merged[room].timestamp)
    {
      var room :| room in todo;
      if room in existing && existing[room].timestamp.Some? {
        info := info[room := info[room].(timestamp := existing[room].timestamp)];
      } else if room !in existing {
        info := info[room := info[room].(timestamp := Some(now.compiledAt))];
      }
      todo := todo - {room};
    }
  }

  /** The lookup of a manual room no session lists. */
  method ManualEntry(room: string, existing: map<string, Known>, now: Now) returns (i: Info)
    ensures ManualOnly(Lookup(existing, room), now, i)
  {
    if room in existing {
      var k := existing[room];
      var d := if k.date.Some? then k.date.value else "Manual";
      var session := if k.session.Some? then k.session.value else 0;
      if d == "Manual" {
        i := Info(Some(now.today), session, Some(now.todayAt), false);
      } else {
        i := Info(if d == "Unknown" then None else Some(d), session, k.timestamp, false);
      }
    } else {
      i := Info(Some(now.today), 0, Some(now.todayAt), false);
    }
  }

  /** The loop over the manual rooms, which are never pending. */
  method AddManual(
    stamped: map<string, Info>, blacklist: set<string>, manual: seq<string>, existing: map<string, Known>,
    now: Now)
    returns (info: map<string, Info>)
    ensures forall room :: room in info <==> room in stamped || (room in manual && room !in blacklist)
    ensures forall room :: room in stamped ==>
      info[room] == stamped[room].(pending := stamped[room].pending && !(room in manual && room !in blacklist))
    ensures forall room :: room in info && room !in stamped ==>
      ManualOnly(Lookup(existing, room), now, info[room])
  {
    hide ManualOnly, Lookup;
    info := stamped;
    for n := 0 to |manual|
      invariant forall room :: room in info <==> room in stamped || (room in manual[..n] && room !in blacklist)
      invariant forall room :: room in stamped ==>
        info[room] == stamped[room].(pending := stamped[room].pending && !(room in manual[..n] && room !in blacklist))
      invariant forall room :: room in info && room !in stamped ==>
        ManualOnly(Lookup(existing, room), now, info[room])
    {
      var m := manual[n];
      assert manual[..n + 1] == manual[..n] + [m];
      if m !in blacklist {
        if m !in info {
          var i := ManualEntry(m, existing, now);
          info := info[m := i];
        }
        if m !in stamped { NeverPending(Lookup(existing, m), now, info[m]); }
        info := info[m := info[m].(pending := false)];
      }
    }
    assert manual[..|manual|] == manual;
  }

  lemma {:induction false} NeverPending(known: Option<Known>, now: Now, i: Info)
    requires ManualOnly(known, now, i)
    ensures i.(pending := false) == i
  {
  }

  /** Some folder lists the room. */
  ghost predicate Seen(sessions: seq<Session>, room: string) {
    exists s :: s in sessions && room in s.lines
  }

  lemma {:induction false} ListingIs(sessions: seq<Session>, room: string)
    ensures forall s :: s in Listing(sessions, room) <==> s in sessions && room in s.lines
    ensures Listing(sessions, room) != [] <==> Seen(sessions, room)
  {
    forall s ensures s in Listing(sessions, room) <==> s in sessions && room in s.lines {
      ListingCounts(sessions, room, s);
      assert s in Listing(sessions, room) <==> multiset(Listing(sessions, room))[s] > 0;
      assert s in sessions <==> multiset(sessions)[s] > 0;
    }
    if Listing(sessions, room) != [] { assert Listing(sessions, room)[0] in Listing(sessions, room); }
  }

  /** What a reader of the folders can check of one room's entry. */
  lemma {:induction false} EntryMeans(
    sessions: seq<Session>, blacklist: set<string>, manual: seq<string>, existing: map<string, Known>,
    now: Now, info: map<string, Info>, room: string)
    requires MasterList(sessions, blacklist, manual, existing, now, info)
    ensures room in info <==> room !in blacklist && (Seen(sessions, room) || room in manual)
    ensures room in info ==>
              (info[room].pending <==> room !in manual && forall s :: s in sessions && room in s.lines ==> s.pending)
    ensures room in info && Seen(sessions, room) ==> OfListing(sessions, room, info[room])
    ensures room in info && Seen(sessions, room) ==>
              forall s :: s in sessions && room in s.lines && s.date.Some? ==> NotLater(info[room], s)
    ensures room in info && room !in existing ==>
              info[room].timestamp == Some(if Seen(sessions, room) then now.compiledAt else now.todayAt)
    ensures room in info && room in existing && existing[room].timestamp.Some? && Seen(sessions, room) ==>
              info[room].timestamp == existing[room].timestamp
    ensures room in info && !Seen(sessions, room) && (room !in existing || existing[room].date.None?) ==>
              info[room].date == Some(now.today)
  {
    ListingIs(sessions, room);
    if room in info && Seen(sessions, room) {
      var listing, i := Listing(sessions, room), info[room];
      hide Listing;
      forall s | s in sessions && room in s.lines && s.date.Some? ensures NotLater(i, s) {
        assert s in listing && AnyDated(listing);
        LtTrichotomy(s.date.value, i.date.value);
        LeReflexive(s.date.value);
        LeByCharacter(i.date.value, s.date.value);
      }
    }
  }

  /** Date and number are those of a folder listing the room. */
  ghost predicate OfListing(sessions: seq<Session>, room: string, i: Info) {
    exists s :: s in sessions && room in s.lines && s.date == i.date && s.number == i.session
  }

  /** The discovery is dated, character by character not above the session's date, and on the same date
      not above its number. */
  ghost predicate NotLater(i: Info, s: Session)
    requires s.date.Some?
  {
    i.date.Some? && NotAbove(i.date.value, s.date.value) && (i.date == s.date ==> i.session <= s.number)
  }

  /** `compile_master_list`: the merged sessions with their times, and the manual rooms. Listed are the
      rooms outside the blacklist that a folder or the manual list names, each under a date no later than
      that of any folder listing it. */
  method CompileMasterList(
    sessions: seq<Session>, blacklist: set<string>, manual: seq<string>, existing: map<string, Known>, now: Now)
    returns (info: map<string, Info>)
    ensures MasterList(sessions, blacklist, manual, existing, now, info)
    ensures forall room :: room in info <==> room !in blacklist && (Seen(sessions, room) || room in manual)
    ensures forall room :: room in info ==>
      (info[room].pending <==> room !in manual && forall s :: s in sessions && room in s.lines ==> s.pending)
    ensures forall room, s :: room in info && s in sessions && room in s.lines ==>
      OfListing(sessions, room, info[room]) && (s.date.Some? ==> NotLater(info[room], s))
    ensures forall room :: room in info && room !in existing ==>
      info[room].timestamp == Some(if Seen(sessions, room) then now.compiledAt else now.todayAt)
    ensures forall room :: room in info && room in existing && existing[room].timestamp.Some?
                           && Seen(sessions, room) ==>
                             info[room].timestamp == existing[room].timestamp
    ensures forall room :: room in info && !Seen(sessions, room)
                           && (room !in existing || existing[room].date.None?) ==>
                             info[room].date == Some(now.today)
  {
    var merged := MergeSessions(sessions, blacklist);
    hide Listed, ManualOnly, Listing, Fits, Discovered, Timed, OfListing, NotLater;
    var stamped := StampTimes(merged, existing, now);
    info := AddManual(stamped, blacklist, manual, existing, now);
    forall room | room in merged
      ensures room !in blacklist && Listing(sessions, room) != []
      ensures Listed(Listing(sessions, room), room in manual, Lookup(existing, room), now, info[room])
    {
      MergedIsListed(sessions, blacklist, merged, room, manual, existing, now, info[room]);
    }
    assert MasterList(sessions, blacklist, manual, existing, now, info);
    forall room { EntryMeans(sessions, blacklist, manual, existing, now, info, room); }
    forall room, s | room in info && s in sessions && room in s.lines
      ensures OfListing(sessions, room, info[room]) && (s.date.Some? ==> NotLater(info[room], s))
    {
      assert Seen(sessions, room);
    }
  }

  /** A merged room with its time and manual mark put right is as the finished list must say. */
  lemma {:induction false} MergedIsListed(
    sessions: seq<Session>, blacklist: set<string>, merged: map<string, Info>, room: string,
    manual: seq<string>, existing: map<string, Known>, now: Now, i: Info)
    requires Compiled(sessions, blacklist, merged) && room in merged
    requires i.date == merged[room].date && i.session == merged[room].session
    requires i.pending <==> merged[room].pending && room !in manual
    requires i.timestamp == if room !in existing then Some(now.compiledAt)
                            else if existing[room].timestamp.Some? then existing[room].timestamp
                            else merged[room].timestamp
    ensures room !in blacklist && Listing(sessions, room) != []
    ensures Listed(Listing(sessions, room), room in manual, Lookup(existing, room), now, i)
  {
    assert Fits(Listing(sessions, room), merged[room]);
  }

  /** The listing sessions alone decide date and number. */
  lemma {:induction false} DiscoveryIsUnique(listing: seq<Session>, i: Info, j: Info)
    requires Discovered(listing, i) && Discovered(listing, j)
    ensures i.date == j.date && i.session == j.session
  {
    if AnyDated(listing) { LtTrichotomy(i.date.value, j.date.value); }
  }

  /** Compiling the same folders again from what was saved, however much later, moves no date, number,
      time or pending mark. */
  lemma {:induction false} RecompilingChangesNothing(
    sessions: seq<Session>, blacklist: set<string>, manual: seq<string>, existing: map<string, Known>,
    now: Now, info: map<string, Info>, later: Now, again: map<string, Info>)
    requires MasterList(sessions, blacklist, manual, existing, now, info)
    requires MasterList(sessions, blacklist, manual, Saved(info), later, again)
    ensures again == info
  {
    hide Listing, Discovered, Timed;
    forall room ensures room in again <==> room in info {}
    forall room | room in info ensures again[room] == info[room] {
      var listing := Listing(sessions, room);
      if listing != [] {
        DiscoveryIsUnique(listing, info[room], again[room]);
        TimedHasTime(listing, info[room]);
      }
    }
  }

  lemma {:induction false} TimedHasTime(listing: seq<Session>, i: Info)
    ensures Timed(listing, i) ==> i.timestamp.Some?
  {
  }
}
