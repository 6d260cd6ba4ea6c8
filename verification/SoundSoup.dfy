// The sound soup player: a list of files, each with its own loop count, and a loop
// count for the whole list. A counter machine plays the nested loops.

module SoundSoup {
  import opened Common

  const INT_MAX := 0x7fff_ffff
  type i32 = x: int | -0x8000_0000 <= x <= 0x7fff_ffff

  /** sound: the file has a sound object. */
  datatype SoupFile = SoupFile(loopcount: int, maxloop: int, sound: bool)

  datatype Soup = Soup(files: seq<SoupFile>, loopcount: int, currentfile: nat)

  /** An entry of a JSON object: missing, a bool, an int or anything else. */
  datatype Entry = Missing | Boolean(b: bool) | Number(n: i32) | Other

  /** sound: the definition names a file for it. */
  datatype FileEntry = FileEntry(loop: Entry, start: Entry, stop: Entry, sound: bool)

  /** The loop count of a file. After the switch on its type, the entry is converted
      as an integer whatever its type was, which throws for anything else. */
  function FileLoop(loop: Entry): Option<int> {
    match loop
    case Missing => Some(0)
    case Number(n) => Some(n)
    case _ => None
  }

  /** The loop count of the whole soup: only ints and bools are looked at. */
  function SoupLoop(loop: Entry): int {
    match loop
    case Boolean(b) => if b then INT_MAX else 0
    case Number(n) => n
    case _ => 0
  }

  /** The start position is converted as an integer and set on the sound object, which has to
      be there. */
  predicate StartSets(e: FileEntry) { e.start.Missing? || (e.start.Number? && e.sound) }

  predicate StopConverts(stop: Entry) { stop.Missing? || stop.Number? }

  /** One file of a new player; None where a conversion throws or there is no sound object. */
  function LoadFile(e: FileEntry): (r: Option<SoupFile>) {
    match FileLoop(e.loop)
    case None => None
    case Some(n) => if !StartSets(e) || !StopConverts(e.stop) then None else Some(SoupFile(n, n, e.sound))
  }

  function LoadFiles(entries: seq<FileEntry>): (r: Option<seq<SoupFile>>)
    ensures r.Some? <==> forall i :: 0 <= i < |entries| ==> LoadFile(entries[i]).Some?
    ensures r.Some? ==> |r.value| == |entries| && forall i :: 0 <= i < |entries| ==> r.value[i] == LoadFile(entries[i]).value
  {
    if entries == [] then Some([])
    else
      var n := |entries| - 1;
      var before, last := LoadFiles(entries[..n]), LoadFile(entries[n]);
      assert forall i :: 0 <= i < n ==> entries[..n][i] == entries[i];
      if before.None? || last.None? then None else Some(before.value + [last.value])
  }

  /** Configuring a new player; None where a file cannot be loaded. */
  function Configure(entries: seq<FileEntry>, loop: Entry): Option<Soup> {
    var files := LoadFiles(entries);
    if files.None? then None else Some(Soup(files.value, SoupLoop(loop), 0))
  }

  predicate IntOrMissing(e: Entry) { e.Missing? || e.Number? }

  /** A new player accepts a definition exactly when every file's loop, start and stop are
      missing or ints, and no file without a sound has a start: a loop that is a bool,
      although accepted for the whole soup, is not. */
  lemma ConfiguresIff(entries: seq<FileEntry>, loop: Entry)
    ensures Configure(entries, loop).Some? <==>
      forall i :: 0 <= i < |entries| ==>
        && IntOrMissing(entries[i].loop) && IntOrMissing(entries[i].start) && IntOrMissing(entries[i].stop)
        && (entries[i].sound || entries[i].start.Missing?)
  {
    forall e: FileEntry
      ensures LoadFile(e).Some? <==>
        IntOrMissing(e.loop) && IntOrMissing(e.start) && IntOrMissing(e.stop) && (e.sound || e.start.Missing?)
    {
    }
  }

  /** Rewinding dereferences the sound object of a file that loops. */
  predicate CanAdvance(s: Soup) {
    s.currentfile < |s.files| && (s.files[s.currentfile].loopcount != 0 ==> s.files[s.currentfile].sound)
  }

  function Rewound(files: seq<SoupFile>): (r: seq<SoupFile>)
    ensures |r| == |files|
  {
    seq(|files|, i requires 0 <= i < |files| => files[i].(loopcount := files[i].maxloop))
  }

  /** What happens when the current file is finished. */
  function PlusOne(s: Soup): Soup
    requires CanAdvance(s)
  {
    var f := s.files[s.currentfile];
    if f.loopcount != 0 then
      s.(files := s.files[s.currentfile := f.(loopcount := f.loopcount - 1)])
    else if |s.files| == s.currentfile + 1 then
      if s.loopcount == 0 then s
      else Soup(Rewound(s.files), s.loopcount - 1, 0)
    else s.(currentfile := s.currentfile + 1)
  }

  class Player {
    const files: array<SoupFile>
    var loopcount: int
    var currentfile: nat

    ghost function Abstract(): Soup
      reads this, files
    {
      Soup(files[..], loopcount, currentfile)
    }

    constructor (s: Soup)
      ensures Abstract() == s && fresh(files)
    {
      files := new SoupFile[|s.files|](i requires 0 <= i < |s.files| => s.files[i]);
      loopcount, currentfile := s.loopcount, s.currentfile;
      new;
      assert files[..] == s.files;
    }

    method Advance()
      requires CanAdvance(Abstract())
      modifies this, files
      ensures Abstract() == PlusOne(old(Abstract()))
    {
      ghost var was := Abstract();
      if files[currentfile].loopcount != 0 {
        files[currentfile] := files[currentfile].(loopcount := files[currentfile].loopcount - 1);
        return;
      }
      if files.Length == currentfile + 1 {
        if loopcount == 0 { return; }
        loopcount := loopcount - 1;
        var i := 0;
        while i < files.Length
          invariant 0 <= i <= files.Length
          invariant forall k :: 0 <= k < i ==> files[k] == Rewound(was.files)[k]
          invariant forall k :: i <= k < files.Length ==> files[k] == was.files[k]
          invariant currentfile == was.currentfile && loopcount == was.loopcount - 1
        {
          files[i] := files[i].(loopcount := files[i].maxloop);
          i := i + 1;
        }
        assert files[..] == Rewound(was.files);
        currentfile := 0;
        return;
      }
      currentfile := currentfile + 1;
    }

    /** One tick: the file read from, or None for silence. finished says that the
        current sound is complete or past its stop position. */
    method Read(finished: bool) returns (playing: Option<nat>)
      requires files.Length > 0 ==> CanAdvance(Abstract())
      modifies this, files
      ensures Abstract() == ReadStep(old(Abstract()), finished)
      ensures playing == ReadFrom(old(Abstract()), finished)
    {
      if files.Length == 0 { return None; }
      if !files[currentfile].sound {
        Advance();
        return None;
      } else if finished {
        Advance();
        return None;
      }
      return Some(currentfile);
    }
  }

  predicate Finishes(s: Soup, finished: bool) {
    s.files != [] && s.currentfile < |s.files| && (!s.files[s.currentfile].sound || finished)
  }

  function ReadStep(s: Soup, finished: bool): Soup
    requires s.files != [] ==> CanAdvance(s)
  {
    if Finishes(s, finished) then PlusOne(s) else s
  }

  function ReadFrom(s: Soup, finished: bool): Option<nat> {
    if s.files == [] || Finishes(s, finished) then None else Some(s.currentfile)
  }

  function Repeat(i: nat, n: nat): seq<nat> { seq(n, _ => i) }

  /** Files from index i on, each repeated as often as it loops. */
  function Playlist(files: seq<SoupFile>, i: nat): seq<nat>
    requires i <= |files| && (forall k :: 0 <= k < |files| ==> files[k].maxloop >= 0)
    decreases |files| - i
  {
    if i == |files| then [] else Repeat(i, files[i].maxloop + 1) + Playlist(files, i + 1)
  }

  /** n copies of a list, one after the other. */
  function Copies(list: seq<nat>, n: nat): seq<nat> {
    if n == 0 then [] else list + Copies(list, n - 1)
  }

  /** The flattened schedule: file i repeated l_i + 1 times, the whole list L + 1 times. */
  function Schedule(s: Soup): seq<nat>
    requires s.loopcount >= 0 && (forall k :: 0 <= k < |s.files| ==> s.files[k].maxloop >= 0)
  {
    Copies(Playlist(s.files, 0), s.loopcount + 1)
  }

  /** Counts are in range and the files still to come are rewound. */
  ghost predicate Playing(s: Soup) {
    && s.currentfile < |s.files|
    && s.loopcount >= 0
    && (forall k :: 0 <= k < |s.files| ==> s.files[k].maxloop >= 0 && (s.files[k].maxloop > 0 ==> s.files[k].sound))
    && 0 <= s.files[s.currentfile].loopcount <= s.files[s.currentfile].maxloop
    && (forall k :: s.currentfile < k < |s.files| ==> s.files[k].loopcount == s.files[k].maxloop)
  }

  /** What is still to be played, the current file first. */
  ghost function Upcoming(s: Soup): seq<nat>
    requires Playing(s)
  {
    Repeat(s.currentfile, s.files[s.currentfile].loopcount + 1)
      + Playlist(s.files, s.currentfile + 1)
      + Copies(Playlist(s.files, 0), s.loopcount)
  }

  /** Playlists depend on the loop maxima only. */
  lemma {:induction false} PlaylistByMaxima(a: seq<SoupFile>, b: seq<SoupFile>, i: nat)
    requires |a| == |b| && i <= |a|
    requires forall k :: 0 <= k < |a| ==> a[k].maxloop == b[k].maxloop && a[k].maxloop >= 0
    ensures Playlist(a, i) == Playlist(b, i)
    decreases |a| - i
  {
    if i < |a| {
      PlaylistByMaxima(a, b, i + 1);
    }
  }

  /** The last file is done and the list starts again. */
  lemma RestartDropsHead(s: Soup)
    requires Playing(s) && s.files[s.currentfile].loopcount == 0
    requires |s.files| == s.currentfile + 1 && s.loopcount > 0
    ensures Playing(PlusOne(s)) && Upcoming(PlusOne(s)) == Upcoming(s)[1..] && |Upcoming(s)| > 1
  {
    var t := PlusOne(s);
    var pass := Playlist(s.files, 0);
    PlaylistByMaxima(t.files, s.files, 0);
    PlaylistByMaxima(t.files, s.files, 1);
    assert Upcoming(s) == [s.currentfile] + Copies(pass, s.loopcount);
    assert pass == Repeat(0, s.files[0].maxloop + 1) + Playlist(s.files, 1);
  }

  /** The current file is played once more. */
  lemma RepeatDropsHead(s: Soup)
    requires Playing(s) && s.files[s.currentfile].loopcount != 0
    ensures CanAdvance(s) && Playing(PlusOne(s))
    ensures Upcoming(PlusOne(s)) == Upcoming(s)[1..] && |Upcoming(s)| > 1
  {
    var t, c := PlusOne(s), s.currentfile;
    PlaylistByMaxima(t.files, s.files, 0);
    PlaylistByMaxima(t.files, s.files, c + 1);
    assert Repeat(c, s.files[c].loopcount + 1)[1..] == Repeat(c, s.files[c].loopcount);
  }

  /** The next file of the list begins. */
  lemma NextDropsHead(s: Soup)
    requires Playing(s) && s.files[s.currentfile].loopcount == 0 && |s.files| > s.currentfile + 1
    ensures Playing(PlusOne(s)) && Upcoming(PlusOne(s)) == Upcoming(s)[1..] && |Upcoming(s)| > 1
  {
    var c := s.currentfile;
    assert Playlist(s.files, c + 1) == Repeat(c + 1, s.files[c + 1].maxloop + 1) + Playlist(s.files, c + 2);
    assert Upcoming(s) == [c] + (Playlist(s.files, c + 1) + Copies(Playlist(s.files, 0), s.loopcount));
  }

  /** Each advance drops the head of what is to come, and the last entry stays. */
  lemma PlusOneDropsHead(s: Soup)
    requires Playing(s)
    ensures CanAdvance(s) && Playing(PlusOne(s))
    ensures Upcoming(s) != [] && Upcoming(s)[0] == s.currentfile
    ensures if |Upcoming(s)| > 1 then Upcoming(PlusOne(s)) == Upcoming(s)[1..] else PlusOne(s) == s
  {
    var c := s.currentfile;
    if s.files[c].loopcount != 0 {
      RepeatDropsHead(s);
    } else if |s.files| > c + 1 {
      NextDropsHead(s);
    } else if s.loopcount > 0 {
      RestartDropsHead(s);
    } else {
      assert Upcoming(s) == [c];
    }
  }

  /** The player after k advances. */
  ghost function After(s: Soup, k: nat): (t: Soup)
    requires Playing(s)
    ensures Playing(t)
  {
    if k == 0 then s else
      var t := After(s, k - 1);
      (PlusOneDropsHead(t); PlusOne(t))
  }

  lemma {:induction false} UpcomingAfter(s: Soup, k: nat)
    requires Playing(s)
    ensures var n := |Upcoming(s)|;
      n > 0 && Upcoming(After(s, k)) == Upcoming(s)[if k < n then k else n - 1..]
    ensures k >= |Upcoming(s)| - 1 ==> PlusOne(After(s, k)) == After(s, k)
  {
    hide PlusOne, Upcoming, Playing;
    PlusOneDropsHead(After(s, k));
    PlusOneDropsHead(s);
    if k > 0 {
      UpcomingAfter(s, k - 1);
      PlusOneDropsHead(After(s, k - 1));
    }
  }

  /** A player just configured with non-negative counts. */
  ghost predicate Started(s: Soup) {
    && s.currentfile == 0 && s.files != [] && s.loopcount >= 0
    && forall k :: 0 <= k < |s.files| ==>
         s.files[k].loopcount == s.files[k].maxloop >= 0 && (s.files[k].maxloop > 0 ==> s.files[k].sound)
  }

  /** A configured player with files can start its schedule exactly when no count is
      negative and every file that repeats has a sound. */
  lemma ConfiguredIsStartedIff(entries: seq<FileEntry>, loop: Entry)
    requires Configure(entries, loop).Some? && entries != []
    ensures Started(Configure(entries, loop).value) <==>
              && SoupLoop(loop) >= 0
              && forall i :: 0 <= i < |entries| ==>
                   FileLoop(entries[i].loop).value >= 0 && (FileLoop(entries[i].loop).value > 0 ==> entries[i].sound)
  {
    var files := LoadFiles(entries).value;
    assert forall i :: 0 <= i < |entries| ==> files[i] == LoadFile(entries[i]).value;
    assert forall i :: 0 <= i < |entries| ==>
             files[i].maxloop == FileLoop(entries[i].loop).value && files[i].sound == entries[i].sound;
  }

  /** The schedule a definition asks for: each file once more than its loop entry says, and the
      list once more than its own says, a true being the largest int and any other entry none. */
  function WantedPass(entries: seq<FileEntry>, i: nat): seq<nat>
    requires i <= |entries|
    decreases |entries| - i
  {
    if i == |entries| then []
    else
      (match entries[i].loop
       case Number(n) => Repeat(i, if n >= 0 then n + 1 else 0)
       case _ => Repeat(i, 1))
      + WantedPass(entries, i + 1)
  }

  function WantedPasses(loop: Entry): nat {
    match loop
    case Boolean(b) => if b then 2147483648 else 1
    case Number(n) => if n >= 0 then n + 1 else 0
    case _ => 1
  }

  lemma {:induction false} PassAsWanted(entries: seq<FileEntry>, files: seq<SoupFile>, i: nat)
    requires |files| == |entries| && i <= |entries|
    requires forall k :: 0 <= k < |entries| ==> LoadFile(entries[k]) == Some(files[k]) && files[k].maxloop >= 0
    ensures Playlist(files, i) == WantedPass(entries, i)
    decreases |entries| - i
  {
    if i < |entries| {
      assert LoadFile(entries[i]) == Some(files[i]);
      PassAsWanted(entries, files, i + 1);
    }
  }

  /** A configured player that can start plays the schedule its definition asks for. */
  lemma ConfiguredPlaysDefinition(entries: seq<FileEntry>, loop: Entry)
    requires Configure(entries, loop).Some? && Started(Configure(entries, loop).value)
    ensures Schedule(Configure(entries, loop).value) == Copies(WantedPass(entries, 0), WantedPasses(loop))
  {
    PassAsWanted(entries, LoadFiles(entries).value, 0);
  }

  /** The number of entries of one pass through the list. */
  function PassLength(files: seq<SoupFile>, i: nat): int
    requires i <= |files|
    decreases |files| - i
  {
    if i == |files| then 0 else files[i].maxloop + 1 + PassLength(files, i + 1)
  }

  lemma {:induction false} PlaylistLength(files: seq<SoupFile>, i: nat)
    requires i <= |files| && (forall k :: 0 <= k < |files| ==> files[k].maxloop >= 0)
    ensures |Playlist(files, i)| == PassLength(files, i)
    decreases |files| - i
  {
    if i < |files| {
      PlaylistLength(files, i + 1);
    }
  }

  lemma {:induction false} CopiesLength(list: seq<nat>, n: nat)
    ensures |Copies(list, n)| == n * |list|
  {
    if n > 0 {
      CopiesLength(list, n - 1);
      assert n * |list| == (n - 1) * |list| + |list|;
    }
  }

  /** Main result: the file current after k advances is entry k of the flattened
      schedule, which has (L + 1) * sum(l_i + 1) entries, and from the last entry on
      nothing changes any more. */
  lemma PlayerFollowsSchedule(s: Soup, k: nat)
    requires Started(s)
    ensures Playing(s) && After(s, k).currentfile < |s.files|
    ensures |Schedule(s)| == (s.loopcount + 1) * PassLength(s.files, 0)
    ensures k < |Schedule(s)| ==> After(s, k).currentfile == Schedule(s)[k]
    ensures After(s, k + 1) == After(s, k) <==> k >= |Schedule(s)| - 1
  {
    ScheduleWithin(s);
    PlaylistLength(s.files, 0);
    CopiesLength(Playlist(s.files, 0), s.loopcount + 1);
    hide PlusOne, Playlist, Copies, Upcoming, WithinFiles;
    UpcomingAfter(s, k);
    UpcomingAfter(s, k + 1);
    PlusOneDropsHead(After(s, k));
    FilesKept(s, k);
  }

  lemma {:induction false} FilesKept(s: Soup, k: nat)
    requires Playing(s)
    ensures |After(s, k).files| == |s.files|
  {
    if k > 0 {
      FilesKept(s, k - 1);
    }
  }

  // ---- ticks

  /** A tick at which the current file has finished, or has no sound, reads silence and moves
      on; at any other the current file is read and nothing changes. */
  lemma ReadMovesOn(s: Soup, finished: bool)
    requires Playing(s)
    ensures var over := finished || !s.files[s.currentfile].sound;
      && CanAdvance(s) && Playing(ReadStep(s, finished))
      && ReadFrom(s, finished) == (if over then None else Some(s.currentfile))
      && Upcoming(ReadStep(s, finished)) == if over && |Upcoming(s)| > 1 then Upcoming(s)[1..] else Upcoming(s)
  {
    PlusOneDropsHead(s);
  }

  /** The player after these ticks; each says whether the current file had finished. */
  ghost function AfterTicks(s: Soup, ticks: seq<bool>): (t: Soup)
    requires Playing(s)
    ensures Playing(t)
  {
    if ticks == [] then s
    else
      var t := AfterTicks(s, ticks[..|ticks| - 1]);
      (ReadMovesOn(t, ticks[|ticks| - 1]); ReadStep(t, ticks[|ticks| - 1]))
  }

  /** Entry n of a list that stands still at its last entry. */
  function EntryOf(list: seq<nat>, n: nat): nat
    requires list != []
  {
    if n < |list| then list[n] else list[|list| - 1]
  }

  predicate WithinFiles(list: seq<nat>, files: seq<SoupFile>) { forall k :: 0 <= k < |list| ==> list[k] < |files| }

  /** How many of these ticks came when the file then due had finished or had no sound. */
  function Over(list: seq<nat>, files: seq<SoupFile>, ticks: seq<bool>): nat
    requires list != [] && WithinFiles(list, files)
  {
    if ticks == [] then 0
    else
      var n := Over(list, files, ticks[..|ticks| - 1]);
      if ticks[|ticks| - 1] || !files[EntryOf(list, n)].sound then n + 1 else n
  }

  lemma SoundsKept(s: Soup)
    requires CanAdvance(s)
    ensures |PlusOne(s).files| == |s.files| && forall k :: 0 <= k < |s.files| ==> PlusOne(s).files[k].sound == s.files[k].sound
  {
  }

  lemma {:induction false} PlaylistWithin(files: seq<SoupFile>, i: nat)
    requires i <= |files| && (forall k :: 0 <= k < |files| ==> files[k].maxloop >= 0)
    ensures WithinFiles(Playlist(files, i), files)
    decreases |files| - i
  {
    if i < |files| { PlaylistWithin(files, i + 1); }
  }

  lemma {:induction false} CopiesWithin(list: seq<nat>, n: nat, files: seq<SoupFile>)
    requires WithinFiles(list, files)
    ensures WithinFiles(Copies(list, n), files)
  {
    if n > 0 { CopiesWithin(list, n - 1, files); }
  }

  lemma ScheduleWithin(s: Soup)
    requires Started(s)
    ensures Schedule(s) != [] && WithinFiles(Schedule(s), s.files) && Playing(s) && Upcoming(s) == Schedule(s)
  {
    PlaylistWithin(s.files, 0);
    CopiesWithin(Playlist(s.files, 0), s.loopcount + 1, s.files);
    assert Upcoming(s) == Schedule(s);
  }

  /** What is to come after n entries of a list, of which the last one stays. */
  function LeftOf(list: seq<nat>, n: nat): seq<nat>
    requires list != []
  {
    list[if n < |list| then n else |list| - 1..]
  }

  lemma LeftOfNext(list: seq<nat>, n: nat)
    requires list != []
    ensures |LeftOf(list, n)| >= 1 && LeftOf(list, n)[0] == EntryOf(list, n)
    ensures LeftOf(list, n + 1) == if |LeftOf(list, n)| > 1 then LeftOf(list, n)[1..] else LeftOf(list, n)
  {
  }

  lemma {:induction false} TicksFollow(s: Soup, ticks: seq<bool>)
    requires Started(s)
    ensures Playing(s) && Schedule(s) != [] && WithinFiles(Schedule(s), s.files)
    ensures var t := AfterTicks(s, ticks);
      && Upcoming(t) == LeftOf(Schedule(s), Over(Schedule(s), s.files, ticks))
      && |t.files| == |s.files| && forall k :: 0 <= k < |s.files| ==> t.files[k].sound == s.files[k].sound
    decreases |ticks|
  {
    ScheduleWithin(s);
    if ticks != [] {
      var before, f := ticks[..|ticks| - 1], ticks[|ticks| - 1];
      TicksFollow(s, before);
      var t := AfterTicks(s, before);
      hide Upcoming, Schedule, PlusOne, Started, LeftOf, EntryOf, Playing, WithinFiles;
      LeftOfNext(Schedule(s), Over(Schedule(s), s.files, before));
      PlusOneDropsHead(t);
      SoundsKept(t);
      ReadMovesOn(t, f);
    }
  }

  /** Main result over ticks: the file read at a tick is entry n of the schedule, n being the
      number of earlier ticks at which the file then due had finished or had no sound; and
      silence is read exactly when it has itself finished or has no sound. */
  lemma TicksPlaySchedule(s: Soup, ticks: seq<bool>, finished: bool)
    requires Started(s)
    ensures Playing(s) && Schedule(s) != [] && WithinFiles(Schedule(s), s.files)
    ensures var due := EntryOf(Schedule(s), Over(Schedule(s), s.files, ticks));
      ReadFrom(AfterTicks(s, ticks), finished) == if finished || !s.files[due].sound then None else Some(due)
  {
    hide Started, Schedule, Upcoming;
    TicksFollow(s, ticks);
    var t := AfterTicks(s, ticks);
    PlusOneDropsHead(t);
    ReadMovesOn(t, finished);
  }
}
