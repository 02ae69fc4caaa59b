/** The transforms of src/lib/boatrace-api.ts between the public race feed and
    the database: the stadium-to-venue lookup of `syncTodaySchedule` and, in
    `fetchAndSaveRaceResult`, the extraction of the first three places and
    the mapping of the feed's payouts to a refund table. The HTTP fetch is a
    parameter: `None` when it failed, otherwise the decoded records. */
module BoatraceApi {
  import opened Wrappers
  import opened Text
  import opened BetLogic
  import opened Schema
  import opened Evaluate
  import opened Sorting
  import BetLogicProperties

  // ---------------------------------------------------------------------
  // Venues (src/lib/constants/venues.ts).
  // ---------------------------------------------------------------------

  datatype Venue = Venue(id: string, name: string)

  const Venues: seq<Venue> := [
    Venue("01", "桐生"), Venue("02", "戸田"), Venue("03", "江戸川"), Venue("04", "平和島"),
    Venue("05", "多摩川"), Venue("06", "浜名湖"), Venue("07", "蒲郡"), Venue("08", "常滑"),
    Venue("09", "津"), Venue("10", "三国"), Venue("11", "びわこ"), Venue("12", "住之江"),
    Venue("13", "尼崎"), Venue("14", "鳴門"), Venue("15", "丸亀"), Venue("16", "児島"),
    Venue("17", "宮島"), Venue("18", "徳山"), Venue("19", "下関"), Venue("20", "若松"),
    Venue("21", "芦屋"), Venue("22", "福岡"), Venue("23", "唐津"), Venue("24", "大村")]

  /** `n.toString().padStart(2, '0')`. */
  function StadiumId(n: int): (id: string)
    ensures |id| >= 2
  {
    PadStart(NumberString(n), 2, '0')
  }

  /** `VENUES.find(v => v.id === id)`. */
  function VenueById(venues: seq<Venue>, id: string): (r: Option<Venue>)
    ensures r.Some? ==> r.value in venues && r.value.id == id
    ensures r.None? <==> forall v :: v in venues ==> v.id != id
  {
    if venues == [] then None
    else if venues[0].id == id then Some(venues[0])
    else
      assert forall v :: v in venues ==> v == venues[0] || v in venues[1..];
      VenueById(venues[1..], id)
  }

  /** `VENUES.find(v => v.name === name)`. */
  function VenueByName(venues: seq<Venue>, name: string): (r: Option<Venue>)
    ensures r.Some? ==> r.value in venues && r.value.name == name
    ensures r.None? <==> forall v :: v in venues ==> v.name != name
  {
    if venues == [] then None
    else if venues[0].name == name then Some(venues[0])
    else
      assert forall v :: v in venues ==> v == venues[0] || v in venues[1..];
      VenueByName(venues[1..], name)
  }

  /** The venue of a feed's stadium number. */
  function VenueOf(stadiumNumber: int): (r: Option<Venue>)
    ensures r.Some? ==> r.value in Venues && r.value.id == StadiumId(stadiumNumber)
  {
    VenueById(Venues, StadiumId(stadiumNumber))
  }

  /** The value of a decimal digit character. */
  lemma DigitValue(d: int)
    requires 0 <= d < 10
    ensures (DigitChar(d) as int) - ('0' as int) == d
  {
    if d == 0 {} else if d == 1 {} else if d == 2 {} else if d == 3 {} else if d == 4 {}
    else if d == 5 {} else if d == 6 {} else if d == 7 {} else if d == 8 {} else {}
  }

  /** Below 100 the id is the two decimal digits of the number. */
  lemma TwoDigitId(n: int)
    requires 0 <= n < 100
    ensures StadiumId(n) == [DigitChar(n / 10), DigitChar(n % 10)]
  {
    if n < 10 {
      assert NumberString(n) == [DigitChar(n)];
      assert DigitChar(0) == '0';
    } else {
      assert NumberString(n) == NatString(n / 10) + [DigitChar(n % 10)];
    }
  }

  /** The table's ids are "01" to "24" in order. */
  lemma VenueIdDigits()
    ensures forall i :: 0 <= i < |Venues| ==> Venues[i].id == [DigitChar((i + 1) / 10), DigitChar((i + 1) % 10)]
  {
    assert DigitChar(0) == '0' && DigitChar(1) == '1' && DigitChar(2) == '2' && DigitChar(3) == '3' && DigitChar(4) == '4';
    assert DigitChar(5) == '5' && DigitChar(6) == '6' && DigitChar(7) == '7' && DigitChar(8) == '8' && DigitChar(9) == '9';
  }

  /** Stadium number n is the venue at position n of the table. */
  lemma VenueIds()
    ensures forall i :: 0 <= i < |Venues| ==> Venues[i].id == StadiumId(i + 1)
  {
    VenueIdDigits();
    forall i | 0 <= i < |Venues|
      ensures Venues[i].id == StadiumId(i + 1)
    {
      TwoDigitId(i + 1);
    }
  }

  /** The first venue with a given id is the one found. */
  lemma {:induction false} VenueByIdFirst(venues: seq<Venue>, id: string, k: nat)
    requires k < |venues| && venues[k].id == id
    requires forall j :: 0 <= j < k ==> venues[j].id != id
    ensures VenueById(venues, id) == Some(venues[k])
  {
    if k > 0 {
      VenueByIdFirst(venues[1..], id, k - 1);
    }
  }

  /** Different numbers below 100 have different ids. */
  lemma StadiumIdInjective(a: int, b: int)
    requires 0 <= a < 100 && 0 <= b < 100
    ensures a != b ==> StadiumId(a) != StadiumId(b)
  {
    TwoDigitId(a);
    TwoDigitId(b);
    if a != b {
      DigitValue(a / 10);
      DigitValue(b / 10);
      DigitValue(a % 10);
      DigitValue(b % 10);
      if a / 10 != b / 10 {
        assert StadiumId(a)[0] != StadiumId(b)[0];
      } else {
        assert StadiumId(a)[1] != StadiumId(b)[1];
      }
    }
  }

  /** Every stadium number 1..24 finds the venue at that position. */
  lemma VenueOfKnown(n: int)
    requires 1 <= n <= 24
    ensures VenueOf(n) == Some(Venues[n - 1])
  {
    VenueIds();
    forall j | 0 <= j < n - 1
      ensures Venues[j].id != StadiumId(n)
    {
      StadiumIdInjective(j + 1, n);
    }
    VenueByIdFirst(Venues, StadiumId(n), n - 1);
  }

  lemma NegativeId(n: int)
    requires n < 0
    ensures StadiumId(n)[0] == '-'
  {
  }

  lemma LongId(n: int)
    requires n >= 100
    ensures |StadiumId(n)| >= 3
  {
    assert NatString(n) == NatString(n / 10) + [DigitChar(n % 10)];
  }

  /** Every other stadium number is unknown: a negative number's id starts
      with '-', a number of 100 or more has three or more digits, and 0 and
      25..99 have two-digit ids outside the table. */
  lemma VenueOfUnknown(n: int)
    requires n < 1 || n > 24
    ensures VenueOf(n).None?
  {
    VenueIds();
    forall i | 0 <= i < |Venues|
      ensures Venues[i].id != StadiumId(n)
    {
      TwoDigitId(i + 1);
      if n < 0 {
        NegativeId(n);
      } else if n < 100 {
        StadiumIdInjective(i + 1, n);
      } else {
        LongId(n);
      }
    }
  }

  lemma VenueOfExamples()
    ensures VenueOf(1).Some? && VenueOf(1).value.name == "桐生"
    ensures VenueOf(24).Some? && VenueOf(24).value.name == "大村"
  {
    VenueOfKnown(1);
    VenueOfKnown(24);
  }

  /** The value of a string of decimal digits, as `parseInt(id, 10)` reads a
      venue id. */
  function DecimalValue(s: string): nat
    requires forall i :: 0 <= i < |s| ==> IsDigit(s[i])
  {
    if s == [] then 0
    else
      assert IsDigit(s[|s| - 1]);
      10 * DecimalValue(s[..|s| - 1]) + ((s[|s| - 1] as int) - ('0' as int))
  }

  /** `parseInt(venue.id, 10)` gives the venue's stadium number back. */
  lemma StadiumNumbers()
    ensures forall i :: 0 <= i < |Venues| ==>
              (forall k :: 0 <= k < |Venues[i].id| ==> IsDigit(Venues[i].id[k])) && DecimalValue(Venues[i].id) == i + 1
  {
    VenueIdDigits();
    forall i | 0 <= i < |Venues|
      ensures (forall k :: 0 <= k < |Venues[i].id| ==> IsDigit(Venues[i].id[k])) && DecimalValue(Venues[i].id) == i + 1
    {
      TwoDigitValue(i + 1);
    }
  }

  /** The value of the two digits of a number below 100 is that number. */
  lemma TwoDigitValue(n: int)
    requires 0 <= n < 100
    ensures var s := [DigitChar(n / 10), DigitChar(n % 10)];
            (forall k :: 0 <= k < |s| ==> IsDigit(s[k])) && DecimalValue(s) == n
  {
    var s := [DigitChar(n / 10), DigitChar(n % 10)];
    DigitValue(n / 10);
    DigitValue(n % 10);
    assert s[..1] == [DigitChar(n / 10)] && s[..1][..0] == [];
    assert DecimalValue(s[..1]) == n / 10;
    assert DecimalValue(s) == 10 * (n / 10) + n % 10;
  }

  // ---------------------------------------------------------------------
  // Schedule sync.
  // ---------------------------------------------------------------------

  /** One record of the schedule feed; `deadlineAt` is `race_closed_at` read
      as Japan time. */
  datatype Program = Program(stadiumNumber: int, raceNumber: int, raceDate: int, deadlineAt: int)

  /** `{success: false, error}` for a failed fetch and for an empty program
      list, `{success: true, count}` otherwise. */
  datatype SyncOutcome = SyncFailed | NoEventsToday | Synced(count: nat)

  /** The race key a program is stored under, `None` for an unknown stadium. */
  function ProgramKey(prog: Program): Option<RaceKey> {
    match VenueOf(prog.stadiumNumber)
    case None => None
    case Some(venue) => Some(RaceKey(venue.name, prog.raceNumber, prog.raceDate))
  }

  /** The schedule table after upserting `programs` in order; unknown
      stadiums are skipped. */
  function Schedules(schedules: map<RaceKey, int>, programs: seq<Program>): map<RaceKey, int> {
    if programs == [] then schedules
    else
      var before := Schedules(schedules, programs[..|programs| - 1]);
      var prog := programs[|programs| - 1];
      match ProgramKey(prog)
      case None => before
      case Some(key) => before[key := prog.deadlineAt]
  }

  /** The number of programs whose stadium is known. */
  function KnownCount(programs: seq<Program>): nat {
    if programs == [] then 0
    else KnownCount(programs[..|programs| - 1]) + (if ProgramKey(programs[|programs| - 1]).Some? then 1 else 0)
  }

  /** The keys of the programs whose stadium is known. */
  function KnownKeys(programs: seq<Program>): set<RaceKey> {
    if programs == [] then {}
    else
      var prog := programs[|programs| - 1];
      KnownKeys(programs[..|programs| - 1]) + (if ProgramKey(prog).Some? then {ProgramKey(prog).value} else {})
  }

  method SyncTodaySchedule(db: Database, feed: Option<seq<Program>>) returns (outcome: SyncOutcome)
    modifies db`raceSchedules
    ensures feed.None? ==> outcome == SyncFailed && db.raceSchedules == old(db.raceSchedules)
    ensures feed == Some([]) ==> outcome == NoEventsToday && db.raceSchedules == old(db.raceSchedules)
    ensures feed.Some? && feed.value != [] ==>
              outcome == Synced(KnownCount(feed.value))
              && db.raceSchedules == Schedules(old(db.raceSchedules), feed.value)
  {
    if feed.None? {
      return SyncFailed;
    }
    var programs := feed.value;
    if |programs| == 0 {
      return NoEventsToday;
    }
    var syncedCount := 0;
    ghost var original := db.raceSchedules;
    for i := 0 to |programs|
      invariant db.raceSchedules == Schedules(original, programs[..i])
      invariant syncedCount == KnownCount(programs[..i])
    {
      assert programs[..i + 1][..i] == programs[..i];
      var prog := programs[i];
      var stadiumId := PadStart(NumberString(prog.stadiumNumber), 2, '0');
      var venue := VenueById(Venues, stadiumId);
      if venue.None? {
        continue;
      }
      var placeName := venue.value.name;
      assert ProgramKey(prog) == Some(RaceKey(placeName, prog.raceNumber, prog.raceDate));
      db.raceSchedules := db.raceSchedules[RaceKey(placeName, prog.raceNumber, prog.raceDate) := prog.deadlineAt];
      syncedCount := syncedCount + 1;
    }
    assert programs[..|programs|] == programs;
    return Synced(syncedCount);
  }

  /** The count never exceeds the number of programs. */
  lemma {:induction false} KnownCountBound(programs: seq<Program>)
    ensures KnownCount(programs) <= |programs|
    decreases |programs|
  {
    if programs != [] {
      KnownCountBound(programs[..|programs| - 1]);
    }
  }

  /** Every known key is the key of some program. */
  lemma {:induction false} KnownKeysSound(programs: seq<Program>, k: RaceKey)
    requires k in KnownKeys(programs)
    ensures exists i :: 0 <= i < |programs| && ProgramKey(programs[i]) == Some(k)
    decreases |programs|
  {
    var prefix, last := programs[..|programs| - 1], |programs| - 1;
    var lastKey := ProgramKey(programs[last]);
    assert KnownKeys(programs) == KnownKeys(prefix) + (if lastKey.Some? then {lastKey.value} else {});
    if k in KnownKeys(prefix) {
      KnownKeysSound(prefix, k);
      var i :| 0 <= i < |prefix| && ProgramKey(prefix[i]) == Some(k);
      assert ProgramKey(programs[i]) == ProgramKey(prefix[i]);
    } else {
      assert lastKey == Some(k);
    }
  }

  /** The key of every program at a known stadium is known. */
  lemma {:induction false} KnownKeysComplete(programs: seq<Program>, i: nat)
    requires i < |programs| && ProgramKey(programs[i]).Some?
    ensures ProgramKey(programs[i]).value in KnownKeys(programs)
    decreases |programs|
  {
    var prefix := programs[..|programs| - 1];
    if i < |programs| - 1 {
      assert prefix[i] == programs[i];
      KnownKeysComplete(prefix, i);
    }
  }

  /** The sync adds or overwrites exactly the keys of known programs and
      leaves every other row as it was. */
  lemma {:induction false} SchedulesEffect(schedules: map<RaceKey, int>, programs: seq<Program>)
    ensures Schedules(schedules, programs).Keys == schedules.Keys + KnownKeys(programs)
    ensures forall k :: k in schedules && k !in KnownKeys(programs) ==> Schedules(schedules, programs)[k] == schedules[k]
    decreases |programs|
  {
    if programs != [] {
      SchedulesEffect(schedules, programs[..|programs| - 1]);
    }
  }

  /** A program at an unknown stadium changes nothing. */
  lemma UnknownStadiumSkipped(schedules: map<RaceKey, int>, programs: seq<Program>, prog: Program)
    requires VenueOf(prog.stadiumNumber).None?
    ensures Schedules(schedules, programs + [prog]) == Schedules(schedules, programs)
    ensures KnownCount(programs + [prog]) == KnownCount(programs)
  {
    assert ProgramKey(prog).None?;
    SkippedProgram(schedules, programs, prog);
  }

  /** Appending a program without a key changes neither the table nor the
      count. */
  lemma SkippedProgram(schedules: map<RaceKey, int>, programs: seq<Program>, prog: Program)
    requires ProgramKey(prog).None?
    ensures Schedules(schedules, programs + [prog]) == Schedules(schedules, programs)
    ensures KnownCount(programs + [prog]) == KnownCount(programs)
  {
    var all := programs + [prog];
    assert all[..|all| - 1] == programs;
  }

  // ---------------------------------------------------------------------
  // Race results.
  // ---------------------------------------------------------------------

  /** A boat of a result record: `racer_place_number` and
      `racer_boat_number`, each possibly absent. */
  datatype Boat = Boat(placeNumber: Option<int>, boatNumber: Option<int>)

  /** `boats.find(b => b.racer_place_number === place)?.racer_boat_number`. */
  function BoatInPlace(boats: seq<Boat>, place: int): (r: Option<int>)
    ensures (forall b :: b in boats ==> b.placeNumber != Some(place)) ==> r.None?
  {
    if boats == [] then None
    else if boats[0].placeNumber == Some(place) then boats[0].boatNumber
    else
      assert forall b :: b in boats[1..] ==> b in boats;
      BoatInPlace(boats[1..], place)
  }

  /** `!value` for a boat number: absent or 0. */
  predicate Falsy(value: Option<int>) {
    value.None? || value.value == 0
  }

  datatype Places = Places(first: int, second: int, third: int)

  /** The first three places, or `None` for "Match not fully concluded". */
  function ExtractPlaces(boats: seq<Boat>): (r: Option<Places>)
    ensures r.None? <==> Falsy(BoatInPlace(boats, 1)) || Falsy(BoatInPlace(boats, 2)) || Falsy(BoatInPlace(boats, 3))
    ensures r.Some? ==> && Some(r.value.first) == BoatInPlace(boats, 1) && Some(r.value.second) == BoatInPlace(boats, 2)
                        && Some(r.value.third) == BoatInPlace(boats, 3)
                        && r.value.first != 0 && r.value.second != 0 && r.value.third != 0
  {
    var first, second, third := BoatInPlace(boats, 1), BoatInPlace(boats, 2), BoatInPlace(boats, 3);
    if Falsy(first) || Falsy(second) || Falsy(third) then None
    else Some(Places(first.value, second.value, third.value))
  }

  /** The boat found for a place is the boat number of the first boat listed
      with that place number. */
  lemma {:induction false} BoatInPlaceIsFirst(boats: seq<Boat>, place: int, k: nat)
    requires k < |boats| && boats[k].placeNumber == Some(place)
    requires forall j :: 0 <= j < k ==> boats[j].placeNumber != Some(place)
    ensures BoatInPlace(boats, place) == boats[k].boatNumber
  {
    if k > 0 {
      BoatInPlaceIsFirst(boats[1..], place, k - 1);
    }
  }

  /** One payout of the feed: the combination string and the payout per 100. */
  datatype FeedPayout = FeedPayout(combination: string, payout: int)

  /** The feed's `payouts`; an absent list is empty. */
  datatype Payouts = Payouts(trifecta: seq<FeedPayout>, trio: seq<FeedPayout>, exacta: seq<FeedPayout>,
                             quinella: seq<FeedPayout>, win: seq<FeedPayout>)

  /** The entries one `forEach` pushes: every payout of the list under `kind`,
      its combination with each `from` replaced by `to`. */
  function Entries(kind: string, ps: seq<FeedPayout>, from: char, to: char): (r: seq<RefundEntry>)
    ensures |r| == |ps|
    ensures forall i :: 0 <= i < |ps| ==> r[i] == RefundEntry(kind, ReplaceAll(ps[i].combination, from, to), ps[i].payout)
  {
    if ps == [] then []
    else
      var p := ps[|ps| - 1];
      Entries(kind, ps[..|ps| - 1], from, to) + [RefundEntry(kind, ReplaceAll(p.combination, from, to), p.payout)]
  }

  /** The WIN entry: only the first win payout is kept. */
  function WinEntry(win: seq<FeedPayout>): seq<RefundEntry> {
    if win == [] then [] else [RefundEntry("WIN", win[0].combination, win[0].payout)]
  }

  /** `refundsData` once all payouts are mapped. */
  function Refunds(p: Payouts): seq<RefundEntry> {
    Entries("3TR", p.trifecta, '-', '-') + Entries("3PL", p.trio, '=', '-') + Entries("2TR", p.exacta, '-', '-')
    + Entries("2PL", p.quinella, '=', '-') + WinEntry(p.win)
  }

  /** One `forEach(p => refundsData.push(...))`. */
  method PushEntries(refundsData: seq<RefundEntry>, kind: string, ps: seq<FeedPayout>, from: char, to: char)
    returns (r: seq<RefundEntry>)
    ensures r == refundsData + Entries(kind, ps, from, to)
  {
    r := refundsData;
    for i := 0 to |ps|
      invariant r == refundsData + Entries(kind, ps[..i], from, to)
    {
      assert ps[..i + 1][..i] == ps[..i];
      r := r + [RefundEntry(kind, ReplaceAll(ps[i].combination, from, to), ps[i].payout)];
    }
    assert ps[..|ps|] == ps;
  }

  method MapPayouts(payouts: Payouts) returns (refundsData: seq<RefundEntry>)
    ensures refundsData == Refunds(payouts)
  {
    var trifecta := Entries("3TR", payouts.trifecta, '-', '-');
    var trio := Entries("3PL", payouts.trio, '=', '-');
    var exacta := Entries("2TR", payouts.exacta, '-', '-');
    var quinella := Entries("2PL", payouts.quinella, '=', '-');
    refundsData := [];
    if |payouts.trifecta| > 0 {
      refundsData := PushEntries(refundsData, "3TR", payouts.trifecta, '-', '-');
    }
    assert refundsData == trifecta;
    if |payouts.trio| > 0 {
      refundsData := PushEntries(refundsData, "3PL", payouts.trio, '=', '-');
    }
    assert refundsData == trifecta + trio;
    if |payouts.exacta| > 0 {
      refundsData := PushEntries(refundsData, "2TR", payouts.exacta, '-', '-');
    }
    assert refundsData == trifecta + trio + exacta;
    if |payouts.quinella| > 0 {
      refundsData := PushEntries(refundsData, "2PL", payouts.quinella, '=', '-');
    }
    assert refundsData == trifecta + trio + exacta + quinella;
    if |payouts.win| > 0 {
      var win := payouts.win[0];
      refundsData := refundsData + [RefundEntry("WIN", win.combination, win.payout)];
    }
  }

  /** The refund table lists every trifecta, trio, exacta and quinella payout
      in that order, then the first win payout alone; each amount is the
      feed's payout; 3TR and 2TR numbers are the feed's strings unchanged,
      3PL and 2PL numbers have every '=' replaced by '-'. */
  lemma RefundsLayout(p: Payouts)
    ensures var r, a, b, c, d := Refunds(p), |p.trifecta|, |p.trio|, |p.exacta|, |p.quinella|;
            && |r| == a + b + c + d + (if p.win == [] then 0 else 1)
            && (forall i :: 0 <= i < a ==> r[i] == RefundEntry("3TR", p.trifecta[i].combination, p.trifecta[i].payout))
            && (forall i :: 0 <= i < b ==>
                  r[a + i] == RefundEntry("3PL", ReplaceAll(p.trio[i].combination, '=', '-'), p.trio[i].payout))
            && (forall i :: 0 <= i < c ==> r[a + b + i] == RefundEntry("2TR", p.exacta[i].combination, p.exacta[i].payout))
            && (forall i :: 0 <= i < d ==>
                  r[a + b + c + i] == RefundEntry("2PL", ReplaceAll(p.quinella[i].combination, '=', '-'), p.quinella[i].payout))
            && (p.win != [] ==> r[a + b + c + d] == RefundEntry("WIN", p.win[0].combination, p.win[0].payout))
  {
    var t, u, x, y, w := Entries("3TR", p.trifecta, '-', '-'), Entries("3PL", p.trio, '=', '-'),
                         Entries("2TR", p.exacta, '-', '-'), Entries("2PL", p.quinella, '=', '-'), WinEntry(p.win);
    Concat5(t, u, x, y, w);
    forall i | 0 <= i < |p.trifecta| ensures t[i] == RefundEntry("3TR", p.trifecta[i].combination, p.trifecta[i].payout) {
      ReplaceAllEffect(p.trifecta[i].combination, '-', '-');
    }
    forall i | 0 <= i < |p.exacta| ensures x[i] == RefundEntry("2TR", p.exacta[i].combination, p.exacta[i].payout) {
      ReplaceAllEffect(p.exacta[i].combination, '-', '-');
    }
  }

  /** Indexing into five lists laid end to end. */
  lemma Concat5(t: seq<RefundEntry>, u: seq<RefundEntry>, x: seq<RefundEntry>, y: seq<RefundEntry>, w: seq<RefundEntry>)
    ensures var r, a, b, c, d := t + u + x + y + w, |t|, |u|, |x|, |y|;
            && |r| == a + b + c + d + |w|
            && (forall i :: 0 <= i < a ==> r[i] == t[i])
            && (forall i :: 0 <= i < b ==> r[a + i] == u[i])
            && (forall i :: 0 <= i < c ==> r[a + b + i] == x[i])
            && (forall i :: 0 <= i < d ==> r[a + b + c + i] == y[i])
            && (forall i :: 0 <= i < |w| ==> r[a + b + c + d + i] == w[i])
  {
  }

  /** An entry pushed by one `forEach` has that list's type and the list's
      combination string with `from` replaced. */
  lemma EntriesMember(kind: string, ps: seq<FeedPayout>, from: char, to: char, e: RefundEntry)
    requires e in Entries(kind, ps, from, to)
    ensures e.kind == kind
    ensures exists i :: 0 <= i < |ps| && e.numbers == ReplaceAll(ps[i].combination, from, to)
  {
    var r := Entries(kind, ps, from, to);
    var i :| 0 <= i < |r| && r[i] == e;
  }

  /** Every 3PL and 2PL entry taken from the feed is free of '='. */
  lemma PlaceEntriesHaveNoEquals(p: Payouts, e: RefundEntry)
    requires e in Refunds(p) && (e.kind == "3PL" || e.kind == "2PL")
    ensures UnorderedSeparator !in e.numbers
  {
    var t, u, x, y, w := Entries("3TR", p.trifecta, '-', '-'), Entries("3PL", p.trio, '=', '-'),
                         Entries("2TR", p.exacta, '-', '-'), Entries("2PL", p.quinella, '=', '-'), WinEntry(p.win);
    assert e in t + u + x + y + w;
    if e in u {
      EntriesMember("3PL", p.trio, '=', '-', e);
      var i :| 0 <= i < |p.trio| && e.numbers == ReplaceAll(p.trio[i].combination, '=', '-');
      ReplaceAllEffect(p.trio[i].combination, '=', '-');
    } else if e in y {
      EntriesMember("2PL", p.quinella, '=', '-', e);
      var i :| 0 <= i < |p.quinella| && e.numbers == ReplaceAll(p.quinella[i].combination, '=', '-');
      ReplaceAllEffect(p.quinella[i].combination, '=', '-');
    } else if e in t {
      EntriesMember("3TR", p.trifecta, '-', '-', e);
    } else if e in x {
      EntriesMember("2TR", p.exacta, '-', '-', e);
    }
  }

  /** Collapsing a tuple of two or more boats gives an id containing '='. */
  lemma CanonicalHasSeparator(t: seq<int>)
    requires |t| >= 2
    ensures UnorderedSeparator in Canonical(t).id
  {
    JoinContainsSeparator(SortNumbers(t), UnorderedSeparator);
  }

  lemma TupleIdsHaveSeparator(tuples: seq<seq<int>>, c: Combination)
    requires forall k :: 0 <= k < |tuples| ==> |tuples[k]| >= 2
    requires c in Unordered(tuples)
    ensures UnorderedSeparator in c.id
  {
    BetLogicProperties.UnorderedSound(tuples, c);
    var k :| 0 <= k < |tuples| && c == Canonical(tuples[k]);
    CanonicalHasSeparator(tuples[k]);
  }

  /** Every 3PL and 2PL combination the generator produces has '=' in its id. */
  lemma GeneratedPlaceIdsHaveSeparator(t: BetType, sel: BoatSelection)
    requires t == Trio || t == Quinella
    ensures forall c :: c in Unrolled(t, sel) ==> UnorderedSeparator in c.id
  {
    var tuples := if t == Trio then Triples(sel.first, sel.second, sel.third) else Pairs(sel.first, sel.second);
    assert Unrolled(t, sel) == Unordered(tuples);
    forall k | 0 <= k < |tuples|
      ensures |tuples[k]| >= 2
    {
      assert tuples[k] in tuples;
      if t == Trio {
        BetLogicProperties.TriplesMembers(sel, tuples[k]);
      } else {
        BetLogicProperties.PairsMembers(sel, tuples[k]);
      }
    }
    forall c | c in Unordered(tuples)
      ensures UnorderedSeparator in c.id
    {
      TupleIdsHaveSeparator(tuples, c);
    }
  }

  /** Consequently a 3PL or 2PL formation whose combination ids carry '=' (as
      every generated one does) never hits a refund table mapped from the
      feed, and earns nothing from it. */
  lemma PlaceBetsNeverHitFeed(f: Formation, p: Payouts)
    requires f.betType == Trio || f.betType == Quinella
    requires forall j :: 0 <= j < |f.combinations| ==> UnorderedSeparator in f.combinations[j].id
    ensures !FormationHit(f, Refunds(p)) && FormationRefund(f, Refunds(p)) == 0
  {
    var e := FirstRefund(Refunds(p), Code(f.betType));
    if e.Some? {
      PlaceEntriesHaveNoEquals(p, e.value);
      CombinationsNoHit(f.combinations, e.value);
    }
  }

  /** One record of the results feed. */
  datatype ResultRecord = ResultRecord(stadiumNumber: int, raceNumber: int, raceDate: int, boats: seq<Boat>,
                                       payouts: Payouts)

  /** `results.find(r => r.race_stadium_number === s && r.race_number === n)`. */
  function FindResult(results: seq<ResultRecord>, stadiumNumber: int, raceNumber: int): (r: Option<ResultRecord>)
    ensures r.Some? ==> r.value in results && r.value.stadiumNumber == stadiumNumber && r.value.raceNumber == raceNumber
    ensures r.None? <==> forall x :: x in results ==> x.stadiumNumber != stadiumNumber || x.raceNumber != raceNumber
  {
    if results == [] then None
    else if results[0].stadiumNumber == stadiumNumber && results[0].raceNumber == raceNumber then Some(results[0])
    else
      assert forall x :: x in results ==> x == results[0] || x in results[1..];
      FindResult(results[1..], stadiumNumber, raceNumber)
  }

  /** The errors `fetchAndSaveRaceResult` catches and returns as
      `{success: false, error}`. */
  datatype FetchError = FetchFailed | InvalidPlaceName | ResultNotYetAvailable | MatchNotConcluded

  datatype FetchOutcome = Saved(key: RaceKey, result: RaceResult) | FetchFailure(error: FetchError)

  /** What `fetchAndSaveRaceResult(placeName, raceNumber)` saves or reports. */
  function FetchSpec(feed: Option<seq<ResultRecord>>, placeName: string, raceNumber: int): FetchOutcome {
    if feed.None? then FetchFailure(FetchFailed)
    else
      match VenueByName(Venues, placeName)
      case None => FetchFailure(InvalidPlaceName)
      case Some(venue) =>
        var stadiumNumber := IdValue(venue.id);
        match FindResult(feed.value, stadiumNumber, raceNumber)
        case None => FetchFailure(ResultNotYetAvailable)
        case Some(record) =>
          match ExtractPlaces(record.boats)
          case None => FetchFailure(MatchNotConcluded)
          case Some(places) =>
            Saved(RaceKey(placeName, raceNumber, record.raceDate),
                  RaceResult(places.first, places.second, places.third, Refunds(record.payouts)))
  }

  /** `parseInt(id, 10)` for the ids of the venue table, which are all digits. */
  function IdValue(id: string): int {
    if forall i :: 0 <= i < |id| ==> IsDigit(id[i]) then DecimalValue(id) else 0
  }

  method FetchAndSaveRaceResult(db: Database, feed: Option<seq<ResultRecord>>, placeName: string, raceNumber: int)
    returns (outcome: FetchOutcome)
    modifies db`raceResults
    ensures outcome == FetchSpec(feed, placeName, raceNumber)
    ensures db.raceResults == if outcome.Saved? then old(db.raceResults)[outcome.key := outcome.result]
                              else old(db.raceResults)
  {
    if feed.None? {
      return FetchFailure(FetchFailed);
    }
    var results := feed.value;
    var venue := VenueByName(Venues, placeName);
    if venue.None? {
      return FetchFailure(InvalidPlaceName);
    }
    var stadiumNumber := IdValue(venue.value.id);
    var raceResult := FindResult(results, stadiumNumber, raceNumber);
    if raceResult.None? {
      return FetchFailure(ResultNotYetAvailable);
    }
    var record := raceResult.value;
    var first := BoatInPlace(record.boats, 1);
    var second := BoatInPlace(record.boats, 2);
    var third := BoatInPlace(record.boats, 3);
    if Falsy(first) || Falsy(second) || Falsy(third) {
      return FetchFailure(MatchNotConcluded);
    }
    var refundsData := MapPayouts(record.payouts);
    var key := RaceKey(placeName, raceNumber, record.raceDate);
    var saved := RaceResult(first.value, second.value, third.value, refundsData);
    db.raceResults := db.raceResults[key := saved];
    return Saved(key, saved);
  }

  /** A saved result is keyed by the requested race, takes its places from the
      boats with place numbers 1, 2 and 3 of the record of the venue's
      stadium, and its refund table from that record's payouts. */
  lemma FetchSavesRequestedRace(feed: Option<seq<ResultRecord>>, placeName: string, raceNumber: int)
    requires FetchSpec(feed, placeName, raceNumber).Saved?
    ensures var out := FetchSpec(feed, placeName, raceNumber);
            && feed.Some? && out.key.placeName == placeName && out.key.raceNumber == raceNumber
            && (exists v, record :: && v in Venues && v.name == placeName && record in feed.value
                                  && record.stadiumNumber == IdValue(v.id) && record.raceNumber == raceNumber
                                  && out.key.raceDate == record.raceDate
                                  && Some(out.result.firstPlace) == BoatInPlace(record.boats, 1)
                                  && Some(out.result.secondPlace) == BoatInPlace(record.boats, 2)
                                  && Some(out.result.thirdPlace) == BoatInPlace(record.boats, 3)
                                  && out.result.refunds == Refunds(record.payouts))
  {
    var v := VenueByName(Venues, placeName).value;
    var record := FindResult(feed.value, IdValue(v.id), raceNumber).value;
    assert record in feed.value;
  }
}
