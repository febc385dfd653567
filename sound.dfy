/** The audio bookkeeping of src/sound.c: the table of channels that are playing a
    sound loaded by playAndFreeSfx, and the sound-effect and music libraries.

    SDL_mixer is outside the model. Whether initAudio succeeds, what Mix_LoadWAV,
    Mix_LoadMUS and Mix_PlayChannel return, the directory listing of fillArr and the
    outcome of each calloc are inputs; Mix_FreeChunk and Mix_FreeMusic are recorded as
    the handles they are given. SDL_mixer calls channelDoneCallback on its own thread
    when a channel finishes; here that call is one more sequential event. */
module Sound {
  import opened Common

  /** A Mix_Chunk (sound effect) handle. */
  datatype Chunk = Chunk(id: nat)
  /** A Mix_Music handle. */
  datatype Music = Music(id: nat)

  /** MAX_CHANNELS. */
  const MaxChannels := 16

  // ---------------------------------------------------------------------------
  // The channel table
  // ---------------------------------------------------------------------------

  /** ChannelData: the chunk a channel is playing, and whether the slot is in use. */
  datatype ChannelData = ChannelData(chunk: Option<Chunk>, inUse: bool)

  const Idle := ChannelData(None, false)

  /** The slots as the code keeps them: a slot in use holds its chunk, a free one holds
      none. The table starts so (`{0}`), and both operations keep it so. */
  predicate Tidy(table: seq<ChannelData>) {
    forall i :: 0 <= i < |table| ==> (table[i].inUse <==> table[i].chunk.Some?)
  }

  /** channelDoneCallback: a channel of the table whose slot is in use has its chunk
      freed (returned, when there is one) and becomes idle; any other channel number
      leaves the table as it is. */
  function Done(table: seq<ChannelData>, channel: int): (r: (seq<ChannelData>, Option<Chunk>))
    requires |table| == MaxChannels
    ensures |r.0| == MaxChannels
    ensures !(0 <= channel < MaxChannels && table[channel].inUse) ==> r == (table, None)
    ensures 0 <= channel < MaxChannels && table[channel].inUse ==>
      r == (table[channel := Idle], table[channel].chunk)
  {
    if 0 <= channel < MaxChannels && table[channel].inUse then
      (table[channel := Idle], table[channel].chunk)
    else (table, None)
  }

  /** What playAndFreeSfx does, given whether initAudio succeeded, what Mix_LoadWAV
      returned and what Mix_PlayChannel returned: the new table and the chunk it freed.
      Nothing happens without audio or without a chunk; a failed playback (-1) frees
      the chunk; a channel of the table records it; any other channel is not recorded. */
  function Played(table: seq<ChannelData>, audioOk: bool, loaded: Option<Chunk>, channel: int)
    : (r: (seq<ChannelData>, Option<Chunk>))
    requires |table| == MaxChannels
    ensures |r.0| == MaxChannels
    ensures r.1.Some? ==> r.1 == loaded && channel == -1
    ensures !audioOk || loaded.None? ==> r == (table, None)
    ensures audioOk && loaded.Some? && channel == -1 ==> r == (table, loaded)
    ensures audioOk && loaded.Some? && 0 <= channel < MaxChannels ==>
      r == (table[channel := ChannelData(loaded, true)], None)
    ensures channel < -1 || channel >= MaxChannels ==> r == (table, None)
  {
    if !audioOk || loaded.None? then (table, None)
    else if channel == -1 then (table, loaded)
    else if 0 <= channel < MaxChannels then (table[channel := ChannelData(loaded, true)], None)
    else (table, None)
  }

  /** Both events keep the table tidy. */
  lemma EventsKeepTidy(table: seq<ChannelData>, channel: int, audioOk: bool, loaded: Option<Chunk>)
    requires |table| == MaxChannels && Tidy(table)
    ensures Tidy(Done(table, channel).0)
    ensures Tidy(Played(table, audioOk, loaded, channel).0)
  {
  }

  /** A chunk played on a channel of the table is the one the callback frees when that
      channel finishes, and the slot is idle again; a second callback for the same
      channel does nothing. */
  lemma PlayThenDone(table: seq<ChannelData>, c: Chunk, channel: int)
    requires |table| == MaxChannels && 0 <= channel < MaxChannels
    ensures var played := Played(table, true, Some(c), channel).0;
      && Done(played, channel) == (table[channel := Idle], Some(c))
      && Done(Done(played, channel).0, channel) == (Done(played, channel).0, None)
  {
    var played := Played(table, true, Some(c), channel).0;
    assert played[channel := Idle] == table[channel := Idle];
  }

  /** Only a successful playback on a channel of the table changes it, and only there. */
  lemma PlayedChangesOneSlot(table: seq<ChannelData>, audioOk: bool, loaded: Option<Chunk>, channel: int)
    requires |table| == MaxChannels
    ensures var r := Played(table, audioOk, loaded, channel).0;
      forall i :: 0 <= i < MaxChannels && i != channel ==> r[i] == table[i]
    ensures Played(table, audioOk, loaded, channel).0 != table ==>
      audioOk && loaded.Some? && 0 <= channel < MaxChannels
  {
  }

  /** channel_chunks: the static table. */
  class ChannelTable {
    var slots: array<ChannelData>

    ghost predicate Valid()
      reads this
    {
      slots.Length == MaxChannels
    }

    function Contents(): seq<ChannelData>
      reads this, slots
    {
      slots[..]
    }

    /** `static ChannelData channel_chunks[MAX_CHANNELS] = {0}`. */
    constructor ()
      ensures Valid() && fresh(slots)
      ensures Contents() == seq(MaxChannels, _ => Idle) && Tidy(Contents())
    {
      slots := new ChannelData[MaxChannels](_ => Idle);
    }

    /** channelDoneCallback; returns the chunk it freed, if any. */
    method ChannelDone(channel: int) returns (freed: Option<Chunk>)
      requires Valid()
      modifies slots
      ensures Valid()
      ensures (Contents(), freed) == Done(old(Contents()), channel)
    {
      freed := None;
      if 0 <= channel < MaxChannels && slots[channel].inUse {
        // Mix_FreeChunk on a non-null chunk; the slot's chunk and flag are cleared.
        freed := slots[channel].chunk;
        slots[channel] := Idle;
      }
    }

    /** playAndFreeSfx, with the outcomes of initAudio, Mix_LoadWAV and
        Mix_PlayChannel given; returns the chunk it freed, if any. */
    method PlayAndFreeSfx(audioOk: bool, loaded: Option<Chunk>, channel: int) returns (freed: Option<Chunk>)
      requires Valid()
      modifies slots
      ensures Valid()
      ensures (Contents(), freed) == Played(old(Contents()), audioOk, loaded, channel)
    {
      freed := None;
      if !audioOk {
        return;
      }
      if loaded.None? {
        return;
      }
      if channel == -1 {
        freed := loaded;
        return;
      }
      if 0 <= channel < MaxChannels {
        slots[channel] := ChannelData(loaded, true);
      }
    }
  }

  // ---------------------------------------------------------------------------
  // The sound-effect and music libraries
  // ---------------------------------------------------------------------------

  /** `sfx` and `music`: an array of handles (NULL slots for files that were not
      loaded) and its length. */
  datatype Lib<T> = Lib(slots: Option<seq<Option<T>>>, n: int)

  /** The count never exceeds the array: the free loops read slots `0 .. n-1`. */
  predicate LibShaped<T>(l: Lib<T>) {
    l.slots.Some? ==> l.n <= |l.slots.value|
  }

  /** initSfxLib / initMusicLib, given whether initAudio succeeded, the listing of the
      directory (`None` when fillArr fails; a `None` entry is a NULL name), whether the
      two callocs succeed and what each load returns. NULL unless audio works, the
      directory has files and both allocations succeed; then one slot per file, holding
      what loading it returned, NULL for a NULL name or a file that failed to load. */
  function Initialised<T>(audioOk: bool, listing: Option<seq<Option<string>>>, libAlloc: bool,
                          arrayAlloc: bool, loads: seq<Option<T>>): (r: Option<Lib<T>>)
    requires listing.Some? ==> |listing.value| <= |loads|
    ensures r.Some? <==> audioOk && listing.Some? && |listing.value| > 0 && libAlloc && arrayAlloc
    ensures r.Some? ==> r.value.n == |listing.value| && r.value.slots.Some? && |r.value.slots.value| == r.value.n
    ensures r.Some? ==> forall i :: 0 <= i < r.value.n ==>
      r.value.slots.value[i] == if listing.value[i].None? then None else loads[i]
  {
    if !audioOk || listing.None? || |listing.value| == 0 || !libAlloc || !arrayAlloc then None
    else
      var names := listing.value;
      Some(Lib(Some(seq(|names|, i requires 0 <= i < |names| => if names[i].None? then None else loads[i])), |names|))
  }

  /** The loading policy allows partial loads: a file that fails to load leaves its slot
      NULL and the library is still returned with every file counted, unlike the
      texture library. */
  lemma PartialLoadKept<T>(audioOk: bool, listing: Option<seq<Option<string>>>, loads: seq<Option<T>>, j: nat)
    requires listing.Some? && j < |listing.value| <= |loads| && audioOk
    requires loads[j].None?
    ensures var r := Initialised(audioOk, listing, true, true, loads);
      r.Some? && r.value.n == |listing.value| && r.value.slots.value[j].None?
  {
  }

  /** The loop of initSfxLib / initMusicLib over the calloc'd array. */
  method InitLib<T>(audioOk: bool, listing: Option<seq<Option<string>>>, libAlloc: bool, arrayAlloc: bool,
                    loads: seq<Option<T>>) returns (r: Option<Lib<T>>)
    requires listing.Some? ==> |listing.value| <= |loads|
    ensures r == Initialised(audioOk, listing, libAlloc, arrayAlloc, loads)
  {
    if !audioOk {
      return None;
    }
    if listing.None? || |listing.value| <= 0 {
      return None;
    }
    if !libAlloc {
      return None;
    }
    var names := listing.value;
    var n := |names|;
    if !arrayAlloc {
      return None;
    }
    var slots := new Option<T>[n](_ => None);
    for i := 0 to n
      invariant forall j :: 0 <= j < n ==>
        slots[j] == if j < i && names[j].Some? then loads[j] else None
    {
      if names[i].None? {
        continue;
      }
      slots[i] := loads[i];
    }
    r := Some(Lib(Some(slots[..]), n));
    assert r.value.slots.value == Initialised(audioOk, listing, libAlloc, arrayAlloc, loads).value.slots.value;
  }

  /** initSfxLib. */
  method InitSfxLib(audioOk: bool, listing: Option<seq<Option<string>>>, libAlloc: bool, arrayAlloc: bool,
                    loads: seq<Option<Chunk>>) returns (r: Option<Lib<Chunk>>)
    requires listing.Some? ==> |listing.value| <= |loads|
    ensures r == Initialised(audioOk, listing, libAlloc, arrayAlloc, loads)
  {
    r := InitLib(audioOk, listing, libAlloc, arrayAlloc, loads);
  }

  /** initMusicLib. */
  method InitMusicLib(audioOk: bool, listing: Option<seq<Option<string>>>, libAlloc: bool, arrayAlloc: bool,
                      loads: seq<Option<Music>>) returns (r: Option<Lib<Music>>)
    requires listing.Some? ==> |listing.value| <= |loads|
    ensures r == Initialised(audioOk, listing, libAlloc, arrayAlloc, loads)
  {
    r := InitLib(audioOk, listing, libAlloc, arrayAlloc, loads);
  }

  /** The handles a free loop releases: the non-NULL ones among the first `n` slots. */
  function ReleasedBy<T>(l: Lib<T>): seq<T>
    requires LibShaped(l)
  {
    if l.slots.Some? && l.n > 0 then Present(l.slots.value[..l.n]) else []
  }

  /** freeSfxLib / freeMusicLib: NULL is ignored; otherwise every non-NULL handle among
      the first `n` slots is released (returned in order), and the struct is left with
      a NULL array and `n = 0` before it is itself freed. */
  method FreeLib<T>(cur: Option<Lib<T>>) returns (r: Option<Lib<T>>, released: seq<T>)
    requires cur.Some? ==> LibShaped(cur.value)
    ensures cur.None? ==> r.None? && released == []
    ensures cur.Some? ==> r == Some(Lib(None, 0)) && released == ReleasedBy(cur.value)
  {
    if cur.None? {
      return None, [];
    }
    var l := cur.value;
    released := [];
    if l.slots.Some? {
      var s := l.slots.value;
      var i := 0;
      while i < l.n
        invariant 0 <= i <= (if l.n > 0 then l.n else 0)
        invariant released == Present(s[..i])
      {
        assert s[..i + 1] == s[..i] + [s[i]];
        if s[i].Some? {
          released := released + [s[i].value];
        }
        i := i + 1;
      }
    }
    r := Some(Lib(None, 0));
  }

  /** freeSfxLib. */
  method FreeSfxLib(cur: Option<Lib<Chunk>>) returns (r: Option<Lib<Chunk>>, freed: seq<Chunk>)
    requires cur.Some? ==> LibShaped(cur.value)
    ensures cur.None? ==> r.None? && freed == []
    ensures cur.Some? ==> r == Some(Lib(None, 0)) && freed == ReleasedBy(cur.value)
  {
    r, freed := FreeLib(cur);
  }

  /** freeMusicLib. */
  method FreeMusicLib(cur: Option<Lib<Music>>) returns (r: Option<Lib<Music>>, freed: seq<Music>)
    requires cur.Some? ==> LibShaped(cur.value)
    ensures cur.None? ==> r.None? && freed == []
    ensures cur.Some? ==> r == Some(Lib(None, 0)) && freed == ReleasedBy(cur.value)
  {
    r, freed := FreeLib(cur);
  }

  /** Freeing a library that was just built releases exactly the handles that loaded,
      in file order, and a freed library releases nothing. */
  lemma {:induction false} FreeAfterInit<T>(listing: seq<Option<string>>, loads: seq<Option<T>>)
    requires 0 < |listing| <= |loads|
    ensures var l := Initialised(true, Some(listing), true, true, loads).value;
      ReleasedBy(l) == Present(seq(|listing|, i requires 0 <= i < |listing| => if listing[i].None? then None else loads[i]))
    ensures ReleasedBy<T>(Lib(None, 0)) == []
  {
    var l := Initialised(true, Some(listing), true, true, loads).value;
    assert l.slots.value[..l.n] == l.slots.value;
  }
}
