/** The song of the crate's root module: a registry of tracks keyed by a
    one-byte channel id, lowest-free-id registration, and the mixdown of every
    track's rendered buffer. The track type and the two track operations the
    song calls (`put_in_song` and `play`) are parameters. */
module Song {
  import opened Ints
  import opened Wave

  type ChannelId = uint8

  /** The crate's error kinds that registration distinguishes. */
  datatype Error = Overwrite | Overflow | Other

  /** What `track.put_in_song(id)` answered: accepted (with the track as it
      is to be stored), or an error. */
  datatype Placement<T> = Placed(track: T) | Refused(error: Error) {
    /** An `Overwrite` answer: the scan moves on to the next id. */
    predicate Skips() { Refused? && error == Overwrite }
  }

  /** The outcome of `add_midi_track`; `Todo` is the `todo!()` abort that the
      Rust code reaches on any refusal other than `Overwrite`. */
  datatype AddResult = Ok | Err(error: Error) | Todo(cause: Error)

  /** The registration scan stops at `id`: it is vacant and the track does
      not answer `Overwrite` for it. */
  predicate Claims<T>(tracks: map<ChannelId, T>, track: T, put: (T, ChannelId) -> Placement<T>, id: ChannelId)
  {
    id !in tracks && !put(track, id).Skips()
  }

  /** The first id from `from` on where the scan stops, or 256 for none. */
  function LowestClaim<T>(tracks: map<ChannelId, T>, track: T, put: (T, ChannelId) -> Placement<T>, from: nat): (id: nat)
    requires from <= 256
    ensures from <= id <= 256
    ensures id < 256 ==> Claims(tracks, track, put, id)
    ensures forall j :: from <= j < id ==> !Claims(tracks, track, put, j)
    decreases 256 - from
  {
    if from == 256 then 256
    else if Claims(tracks, track, put, from) then from
    else LowestClaim(tracks, track, put, from + 1)
  }

  /** The scan stops at id when id claims and no id below it does. */
  lemma LowestClaimAt<T>(tracks: map<ChannelId, T>, track: T, put: (T, ChannelId) -> Placement<T>, id: nat)
    requires id <= 256
    requires id < 256 ==> Claims(tracks, track, put, id)
    requires forall j :: 0 <= j < id ==> !Claims(tracks, track, put, j)
    ensures LowestClaim(tracks, track, put, 0) == id
  {
  }

  /** The outcome and the new track map of `add_midi_track`. */
  function Registered<T>(tracks: map<ChannelId, T>, track: T, put: (T, ChannelId) -> Placement<T>)
    : (r: (AddResult, map<ChannelId, T>))
    ensures !r.0.Ok? ==> r.1 == tracks
    ensures tracks.Keys <= r.1.Keys
    ensures forall id :: id in tracks ==> r.1[id] == tracks[id]
    ensures |r.1| == |tracks| + (if r.0.Ok? then 1 else 0)
  {
    var id := LowestClaim(tracks, track, put, 0);
    if id == 256 then (Err(Overflow), tracks)
    else match put(track, id)
      case Placed(t) => (Ok, tracks[id := t])
      case Refused(e) => (Todo(e), tracks)
  }

  /** The id a successful registration takes is the lowest vacant one the
      track accepts; conversely such an id is where the track goes. */
  lemma RegisteredTakesLowest<T>(tracks: map<ChannelId, T>, track: T, put: (T, ChannelId) -> Placement<T>, id: ChannelId)
    requires id !in tracks && put(track, id).Placed?
    requires forall j :: 0 <= j < id ==> j in tracks || put(track, j).Skips()
    ensures Registered(tracks, track, put) == (Ok, tracks[id := put(track, id).track])
  {
    forall j | 0 <= j < id ensures !Claims(tracks, track, put, j) { }
    LowestClaimAt(tracks, track, put, id);
  }

  lemma RegisteredOkHasLowest<T>(tracks: map<ChannelId, T>, track: T, put: (T, ChannelId) -> Placement<T>)
    requires Registered(tracks, track, put).0.Ok?
    ensures exists id: ChannelId ::
      && id !in tracks && put(track, id).Placed?
      && (forall j :: 0 <= j < id ==> j in tracks || put(track, j).Skips())
      && Registered(tracks, track, put).1 == tracks[id := put(track, id).track]
  {
    var id := LowestClaim(tracks, track, put, 0);
    assert id < 256;
    forall j | 0 <= j < id ensures j in tracks || put(track, j).Skips() {
      assert !Claims(tracks, track, put, j);
    }
  }

  /** An `Overwrite` answer for a vacant id never puts the track there. */
  lemma OverwriteSkipsId<T>(tracks: map<ChannelId, T>, track: T, put: (T, ChannelId) -> Placement<T>, id: ChannelId)
    requires id !in tracks && put(track, id).Skips()
    ensures id !in Registered(tracks, track, put).1
  {
    var first := LowestClaim(tracks, track, put, 0);
    if first < 256 {
      assert Claims(tracks, track, put, first);
    }
  }

  /** Registration overflows exactly when every id is taken or refused with
      `Overwrite`. */
  lemma OverflowIffNoClaim<T>(tracks: map<ChannelId, T>, track: T, put: (T, ChannelId) -> Placement<T>)
    ensures Registered(tracks, track, put).0 == Err(Overflow)
        <==> forall j: ChannelId :: j in tracks || put(track, j).Skips()
  {
    var first := LowestClaim(tracks, track, put, 0);
    if first < 256 {
      assert Claims(tracks, track, put, first);
    } else {
      forall j: ChannelId ensures j in tracks || put(track, j).Skips() {
        assert !Claims(tracks, track, put, j);
      }
    }
  }

  /** The set of the ids below n. */
  function IdsBelow(n: nat): (ids: set<ChannelId>)
    requires n <= 256
    ensures forall id: ChannelId :: id in ids <==> id < n
  {
    if n == 0 then {} else IdsBelow(n - 1) + {n - 1}
  }

  lemma {:induction false} IdsBelowCount(n: nat)
    requires n <= 256
    ensures |IdsBelow(n)| == n
  {
    if n > 0 {
      IdsBelowCount(n - 1);
      assert IdsBelow(n) == IdsBelow(n - 1) + {n - 1};
    }
  }

  /** A song never holds more than 256 tracks. */
  lemma TrackCountBounded<T>(tracks: map<ChannelId, T>)
    ensures |tracks| <= 256
  {
    IdsBelowCount(256);
    assert tracks.Keys <= IdsBelow(256);
    SubsetCount(tracks.Keys, IdsBelow(256));
  }

  lemma {:induction false} SubsetCount(a: set<ChannelId>, b: set<ChannelId>)
    requires a <= b
    ensures |a| <= |b|
    ensures |a| == |b| ==> a == b
    decreases b
  {
    if b - a == {} {
      assert a == b;
    } else {
      var x :| x in b - a;
      SubsetCount(a, b - {x});
    }
  }

  /** With all 256 ids in use, registration overflows and changes nothing. */
  lemma FullSongOverflows<T>(tracks: map<ChannelId, T>, track: T, put: (T, ChannelId) -> Placement<T>)
    requires |tracks| == 256
    ensures Registered(tracks, track, put) == (Err(Overflow), tracks)
  {
    IdsBelowCount(256);
    SubsetCount(tracks.Keys, IdsBelow(256));
    assert forall j: ChannelId :: j in tracks;
    OverflowIffNoClaim(tracks, track, put);
  }

  // The mixdown, defined independently of any iteration order: length and
  // samples are folds over the ids in ascending order.

  /** The length of the longest buffer among the ids below n. */
  function LongestBelow(m: map<ChannelId, seq<real>>, n: nat): nat
    requires n <= 256
  {
    if n == 0 then 0
    else Max(LongestBelow(m, n - 1), if n - 1 in m then |m[n - 1]| else 0)
  }

  /** The sum of sample k over the buffers with ids below n, with silence past
      a buffer's end. */
  function SumBelow(m: map<ChannelId, seq<real>>, k: int, n: nat): real
    requires n <= 256
  {
    if n == 0 then 0.0
    else SumBelow(m, k, n - 1) + (if n - 1 in m then At(m[n - 1], k) else 0.0)
  }

  /** The mixdown of rendered buffers keyed by channel: as long as the longest,
      each sample the sum of the buffers' samples there. */
  function Mixdown(m: map<ChannelId, seq<real>>): seq<real>
  {
    seq(LongestBelow(m, 256), k => SumBelow(m, k, 256))
  }

  lemma {:induction false} LongestInsert(m: map<ChannelId, seq<real>>, id: ChannelId, w: seq<real>, n: nat)
    requires id !in m && n <= 256
    ensures LongestBelow(m[id := w], n) == if id < n then Max(LongestBelow(m, n), |w|) else LongestBelow(m, n)
  {
    if n > 0 { LongestInsert(m, id, w, n - 1); }
  }

  lemma {:induction false} SumInsert(m: map<ChannelId, seq<real>>, id: ChannelId, w: seq<real>, k: int, n: nat)
    requires id !in m && n <= 256
    ensures SumBelow(m[id := w], k, n) == SumBelow(m, k, n) + (if id < n then At(w, k) else 0.0)
  {
    if n > 0 { SumInsert(m, id, w, k, n - 1); }
  }

  lemma {:induction false} SumPastLongest(m: map<ChannelId, seq<real>>, k: int, n: nat)
    requires n <= 256 && k >= LongestBelow(m, n)
    ensures SumBelow(m, k, n) == 0.0
  {
    if n > 0 { SumPastLongest(m, k, n - 1); }
  }

  lemma {:induction false} LongestOfEmpty(n: nat)
    requires n <= 256
    ensures LongestBelow(map[], n) == 0
  {
    if n > 0 { LongestOfEmpty(n - 1); }
  }

  /** Silence: a song without tracks mixes down to an empty buffer. */
  lemma MixdownOfNone()
    ensures Mixdown(map[]) == []
  {
    LongestOfEmpty(256);
  }

  /** Adding one more track's buffer to the mixdown is mixing it in at offset 0. */
  lemma MixdownInsert(m: map<ChannelId, seq<real>>, id: ChannelId, w: seq<real>)
    requires id !in m
    ensures Mixdown(m[id := w]) == Mixed(Mixdown(m), w, 0)
  {
    var before, after := Mixdown(m), Mixdown(m[id := w]);
    var mixed := Mixed(before, w, 0);
    LongestInsert(m, id, w, 256);
    assert |after| == |mixed|;
    forall k | 0 <= k < |after| ensures after[k] == mixed[k] {
      SumInsert(m, id, w, k, 256);
      if k >= |before| {
        SumPastLongest(m, k, 256);
      }
    }
  }

  /** A song with exactly one track mixes down to that track's buffer. */
  lemma MixdownOfOne(id: ChannelId, w: seq<real>)
    ensures Mixdown(map[id := w]) == w
  {
    MixdownOfNone();
    MixdownInsert(map[], id, w);
    MixIntoEmpty(w);
  }

  lemma {:induction false} LongestBounds(m: map<ChannelId, seq<real>>, n: nat)
    requires n <= 256
    ensures forall id: ChannelId :: id in m && id < n ==> |m[id]| <= LongestBelow(m, n)
    ensures LongestBelow(m, n) == 0 || exists id: ChannelId :: id in m && id < n && |m[id]| == LongestBelow(m, n)
  {
    if n > 0 { LongestBounds(m, n - 1); }
  }

  /** The mixdown is exactly as long as the longest rendered buffer. */
  lemma MixdownLength(m: map<ChannelId, seq<real>>)
    ensures forall id :: id in m ==> |m[id]| <= |Mixdown(m)|
    ensures m != map[] ==> exists id :: id in m && |m[id]| == |Mixdown(m)|
  {
    LongestBounds(m, 256);
    if m != map[] && LongestBelow(m, 256) == 0 {
      var id :| id in m;
      assert |m[id]| == 0;
    }
  }

  /** Mixing the buffers in along some enumeration of the ids, as a loop over
      a hash map does. */
  function MixInOrder(m: map<ChannelId, seq<real>>, order: seq<ChannelId>): seq<real>
    requires forall i :: 0 <= i < |order| ==> order[i] in m
  {
    if order == [] then []
    else Mixed(MixInOrder(m, order[..|order| - 1]), m[order[|order| - 1]], 0)
  }

  lemma {:induction false} MixInOrderFrame(m: map<ChannelId, seq<real>>, m': map<ChannelId, seq<real>>, order: seq<ChannelId>)
    requires forall i :: 0 <= i < |order| ==> order[i] in m && order[i] in m' && m[order[i]] == m'[order[i]]
    ensures MixInOrder(m, order) == MixInOrder(m', order)
  {
    if order != [] { MixInOrderFrame(m, m', order[..|order| - 1]); }
  }

  /** Dropping the last id of a duplicate-free enumeration of m's ids
      enumerates the ids of m without it. */
  lemma DropLast(m: map<ChannelId, seq<real>>, init: seq<ChannelId>, last: ChannelId)
    requires forall id :: id in m <==> id in init + [last]
    requires forall i, j :: 0 <= i < j < |init + [last]| ==> (init + [last])[i] != (init + [last])[j]
    ensures forall id :: id in m - {last} <==> id in init
    ensures forall i, j :: 0 <= i < j < |init| ==> init[i] != init[j]
  {
    var order := init + [last];
    forall id ensures id in m - {last} <==> id in init {
      if id in init {
        var i :| 0 <= i < |init| && init[i] == id;
        assert order[i] == id;
        assert order[|init|] == last;
      }
      if id in order && id != last {
        var i :| 0 <= i < |order| && order[i] == id;
        assert init[i] == id;
      }
    }
    forall i, j | 0 <= i < j < |init| ensures init[i] != init[j] {
      assert order[i] == init[i] && order[j] == init[j];
    }
  }

  /** Order independence: every enumeration of the ids, each once, mixes down
      to the same buffer. */
  lemma {:induction false} MixInOrderIsMixdown(m: map<ChannelId, seq<real>>, order: seq<ChannelId>)
    requires forall id :: id in m <==> id in order
    requires forall i, j :: 0 <= i < j < |order| ==> order[i] != order[j]
    ensures MixInOrder(m, order) == Mixdown(m)
  {
    if order == [] {
      assert m == map[];
      MixdownOfNone();
    } else {
      var last := order[|order| - 1];
      var init := order[..|order| - 1];
      var rest := m - {last};
      assert order == init + [last];
      DropLast(m, init, last);
      assert forall i :: 0 <= i < |init| ==> init[i] in rest && rest[init[i]] == m[init[i]] by {
        forall i | 0 <= i < |init| ensures init[i] in rest && rest[init[i]] == m[init[i]] {
          assert init[i] in init;
        }
      }
      calc {
        MixInOrder(m, order);
        Mixed(MixInOrder(m, init), m[last], 0);
        { MixInOrderFrame(m, rest, init); }
        Mixed(MixInOrder(rest, init), m[last], 0);
        { MixInOrderIsMixdown(rest, init); }
        Mixed(Mixdown(rest), m[last], 0);
        { MixdownInsert(rest, last, m[last]); }
        Mixdown(rest[last := m[last]]);
        { assert rest[last := m[last]] == m; }
        Mixdown(m);
      }
    }
  }

  /** The rendered buffer of every stored track, keyed by its channel. */
  function Rendered<T>(tracks: map<ChannelId, T>, render: T -> seq<real>): (m: map<ChannelId, seq<real>>)
    ensures m.Keys == tracks.Keys
    ensures forall id :: id in tracks ==> m[id] == render(tracks[id])
  {
    map id | id in tracks :: render(tracks[id])
  }

  class Song<T> {
    var name: string
    var tracks: map<ChannelId, T>

    constructor New(name: string)
      ensures this.name == name && tracks == map[]
    {
      this.name := name;
      tracks := map[];
    }

    method GetName() returns (n: string)
      ensures n == name
    {
      n := name;
    }

    /** `add_midi_track`: scan the ids 0..=255 for the first vacant one the
        track accepts. */
    method AddMidiTrack(track: T, put: (T, ChannelId) -> Placement<T>) returns (r: AddResult)
      modifies this
      ensures (r, tracks) == Registered(old(tracks), track, put)
      ensures name == old(name)
    {
      for i := 0 to UINT8_MAX as int + 1
        invariant tracks == old(tracks)
        invariant forall j :: 0 <= j < i ==> !Claims(tracks, track, put, j)
      {
        if i !in tracks {
          match put(track, i)
          case Placed(t) =>
            LowestClaimAt(tracks, track, put, i);
            tracks := tracks[i := t];
            return Ok;
          case Refused(e) =>
            if e == Overwrite {
              continue;
            }
            LowestClaimAt(tracks, track, put, i);
            return Todo(e);
        }
      }
      LowestClaimAt(tracks, track, put, 256);
      return Err(Overflow);
    }

    /** `get_wave`: mix every track's rendered buffer in at offset 0, visiting
        the tracks in an unspecified order. */
    method GetWave(render: T -> seq<real>) returns (wave: Mono)
      ensures fresh(wave)
      ensures wave.wave == Mixdown(Rendered(tracks, render))
    {
      wave := new Mono.New();
      var remaining := tracks.Keys;
      ghost var done: map<ChannelId, seq<real>> := map[];
      MixdownOfNone();
      while remaining != {}
        invariant remaining <= tracks.Keys
        invariant done.Keys == tracks.Keys - remaining
        invariant forall id :: id in done ==> done[id] == render(tracks[id])
        invariant fresh(wave)
        invariant wave.wave == Mixdown(done)
        decreases remaining
      {
        var id :| id in remaining;
        var played := new Mono.FromVec(render(tracks[id]));
        MixdownInsert(done, id, played.wave);
        wave.AddConsuming(played, 0);
        done := done[id := played.wave];
        remaining := remaining - {id};
      }
      assert done == Rendered(tracks, render);
    }
  }
}
