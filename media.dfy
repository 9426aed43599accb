/** Media tracks and streams: the values the browser's media layer hands to the engine. */
module Media {

  datatype Option<T> = None | Some(value: T)

  /** A value, or the numeric code of the error that prevented it. */
  datatype Result<T> = Ok(value: T) | Err(code: nat)

  /** No element occurs twice. */
  predicate Distinct<T(==)>(s: seq<T>)
  {
    forall i, j :: 0 <= i < j < |s| ==> s[i] != s[j]
  }

  datatype Kind = Audio | Video

  /** One media unit. `hint` is the track's `contentHint` label; the browser default is "". */
  datatype Track = Track(id: string, kind: Kind, hint: string)

  /** `Array.prototype.filter`: the elements kept by `keep`, in their original order. */
  function Filter<T(!new)>(s: seq<T>, keep: T -> bool): (r: seq<T>)
    ensures |r| <= |s|
    ensures forall x :: x in r <==> x in s && keep(x)
    ensures forall i :: 0 <= i < |r| ==> keep(r[i])
  {
    if s == [] then [] else (if keep(s[0]) then [s[0]] else []) + Filter(s[1..], keep)
  }

  lemma {:induction false} FilterAppend<T(!new)>(a: seq<T>, b: seq<T>, keep: T -> bool)
    ensures Filter(a + b, keep) == Filter(a, keep) + Filter(b, keep)
  {
    if a == [] {
      assert a + b == b;
    } else {
      assert (a + b)[1..] == a[1..] + b;
      FilterAppend(a[1..], b, keep);
    }
  }

  /** Filtering with a predicate that every element satisfies keeps the whole sequence. */
  lemma {:induction false} FilterAll<T(!new)>(s: seq<T>, keep: T -> bool)
    requires forall x :: x in s ==> keep(x)
    ensures Filter(s, keep) == s
  {
    if s != [] {
      FilterAll(s[1..], keep);
    }
  }

  /** Filtering with a predicate that no element satisfies keeps nothing. */
  lemma {:induction false} FilterNone<T(!new)>(s: seq<T>, keep: T -> bool)
    requires forall x :: x in s ==> !keep(x)
    ensures Filter(s, keep) == []
  {
    if s != [] {
      FilterNone(s[1..], keep);
    }
  }

  lemma AppendAssoc<T>(a: seq<T>, b: seq<T>, c: seq<T>)
    ensures (a + b) + c == a + (b + c)
  {
  }

  /** A prefix one element longer. */
  lemma PrefixStep<T>(s: seq<T>, i: nat)
    requires i < |s|
    ensures s[..i + 1] == s[..i] + [s[i]]
  {
  }

  predicate IsVideo(t: Track) { t.kind == Video }
  predicate IsAudio(t: Track) { t.kind == Audio }

  /** A prefix of a sequence without repetitions has none either. */
  lemma DistinctPrefix<T>(s: seq<T>, i: nat)
    requires Distinct(s) && i <= |s|
    ensures Distinct(s[..i])
  {
    forall a, b | 0 <= a < b < i ensures s[..i][a] != s[..i][b] { assert s[..i][a] == s[a] && s[..i][b] == s[b]; }
  }

  /** Filtering keeps distinct elements distinct. */
  lemma {:induction false} FilterDistinct<T(!new)>(s: seq<T>, keep: T -> bool)
    requires Distinct(s)
    ensures Distinct(Filter(s, keep))
  {
    if s != [] {
      assert Distinct(s[1..]) by {
        forall i, j | 0 <= i < j < |s| - 1 ensures s[1..][i] != s[1..][j] { assert s[i + 1] != s[j + 1]; }
      }
      FilterDistinct(s[1..], keep);
      assert s[0] !in s[1..] by {
        forall j | 0 <= j < |s| - 1 ensures s[1..][j] != s[0] { assert s[j + 1] != s[0]; }
      }
    }
  }

  /** `s` without `x`; the remaining elements keep their order. */
  function Without(s: seq<string>, x: string): (r: seq<string>)
    requires Distinct(s)
    ensures Distinct(r)
    ensures forall y :: y in r <==> y in s && y != x
    ensures s != [] && s[0] == x ==> r == s[1..]
  {
    var keep := (y: string) => y != x;
    FilterDistinct(s, keep);
    if s != [] && s[0] == x then
      assert forall y :: y in s[1..] ==> keep(y) by {
        forall y | y in s[1..] ensures keep(y) {
          var j :| 0 <= j < |s| - 1 && s[1..][j] == y;
          assert s[j + 1] == y;
        }
      }
      FilterAll(s[1..], keep);
      Filter(s, keep)
    else Filter(s, keep)
  }

  /** `stream.getVideoTracks()`. */
  function Videos(s: seq<Track>): seq<Track> { Filter(s, IsVideo) }

  /** `stream.getAudioTracks()`. */
  function Audios(s: seq<Track>): seq<Track> { Filter(s, IsAudio) }

  /** The track ids of a stream, in order (`getTracks().map((t) => t.id)`). */
  function Ids(s: seq<Track>): (r: seq<string>)
    ensures |r| == |s|
    ensures forall i :: 0 <= i < |s| ==> r[i] == s[i].id
  {
    if s == [] then [] else [s[0].id] + Ids(s[1..])
  }

  lemma {:induction false} IdsAppend(a: seq<Track>, b: seq<Track>)
    ensures Ids(a + b) == Ids(a) + Ids(b)
  {
    if a == [] {
      assert a + b == b;
    } else {
      assert (a + b)[1..] == a[1..] + b;
      IdsAppend(a[1..], b);
    }
  }

  /** Position `i` holds the first track of `s` with id `id`. */
  predicate FirstWith(s: seq<Track>, i: int, id: string)
  {
    0 <= i < |s| && s[i].id == id && forall j :: 0 <= j < i ==> s[j].id != id
  }

  /** `stream.getTrackById(id)`: the first track with that id. */
  function FindTrack(s: seq<Track>, id: string): (r: Option<Track>)
    ensures r.None? <==> forall t :: t in s ==> t.id != id
    ensures r.Some? ==> r.value in s && r.value.id == id
    ensures forall i :: FirstWith(s, i, id) ==> r == Some(s[i])
  {
    if s == [] then None else if s[0].id == id then Some(s[0]) else FindTrack(s[1..], id)
  }

  /** The concatenation of a sequence of track lists, in order. */
  function Flatten(ss: seq<seq<Track>>): (r: seq<Track>)
    ensures forall t :: t in r <==> exists i :: 0 <= i < |ss| && t in ss[i]
  {
    if ss == [] then [] else ss[0] + Flatten(ss[1..])
  }

  lemma {:induction false} FlattenAppend(ss: seq<seq<Track>>, s: seq<Track>)
    ensures Flatten(ss + [s]) == Flatten(ss) + s
  {
    if ss == [] {
      assert Flatten([s]) == s + Flatten([]);
    } else {
      assert (ss + [s])[1..] == ss[1..] + [s];
      FlattenAppend(ss[1..], s);
      AppendAssoc(ss[0], Flatten(ss[1..]), s);
    }
  }

  /** The tracks a stored stream holds; an absent stream holds none. */
  function TracksOf(s: Option<seq<Track>>): seq<Track>
  {
    if s.Some? then s.value else []
  }

  /** `s` without any occurrence of `t`, the rest in order. */
  function Except(s: seq<Track>, t: Track): (r: seq<Track>)
    ensures forall x :: x in r <==> x in s && x != t
  {
    if s == [] then [] else (if s[0] == t then [] else [s[0]]) + Except(s[1..], t)
  }

  /** The tracks of `s` that are not in `gone`, in order. */
  function Remaining(s: seq<Track>, gone: seq<Track>): (r: seq<Track>)
    ensures forall x :: x in r <==> x in s && x !in gone
  {
    if s == [] then [] else (if s[0] in gone then [] else [s[0]]) + Remaining(s[1..], gone)
  }

  /** Removing one more track from what remains is removing it along with the others. */
  lemma {:induction false} RemainingExcept(s: seq<Track>, gone: seq<Track>, t: Track)
    ensures Except(Remaining(s, gone), t) == Remaining(s, gone + [t])
  {
    if s != [] {
      RemainingExcept(s[1..], gone, t);
      var head := if s[0] in gone then [] else [s[0]];
      assert Except(head + Remaining(s[1..], gone), t) == Except(head, t) + Except(Remaining(s[1..], gone), t) by {
        ExceptAppend(head, Remaining(s[1..], gone), t);
      }
    }
  }

  lemma {:induction false} ExceptAppend(a: seq<Track>, b: seq<Track>, t: Track)
    ensures Except(a + b, t) == Except(a, t) + Except(b, t)
  {
    if a == [] {
      assert a + b == b;
    } else {
      assert (a + b)[1..] == a[1..] + b;
      ExceptAppend(a[1..], b, t);
    }
  }

  /** One step of removing a snapshot's tracks in order: the `i`-th track joins the removed ones. */
  lemma RemainingStep(ts: seq<Track>, i: nat)
    requires i < |ts|
    ensures Except(Remaining(ts[i..], ts[..i]), ts[i]) == Remaining(ts[i + 1..], ts[..i + 1])
  {
    var gone := ts[..i + 1];
    assert gone == ts[..i] + [ts[i]];
    RemainingExcept(ts[i..], ts[..i], ts[i]);
    RemainingSkip(ts[i..], gone);
    assert ts[i..][1..] == ts[i + 1..];
  }

  lemma RemainingSkip(s: seq<Track>, gone: seq<Track>)
    requires s != [] && s[0] in gone
    ensures Remaining(s, gone) == Remaining(s[1..], gone)
  {
    assert Remaining(s, gone) == [] + Remaining(s[1..], gone);
  }

  /** Nothing removed: everything remains. */
  lemma {:induction false} RemainingNone(s: seq<Track>)
    ensures Remaining(s, []) == s
  {
    if s != [] {
      RemainingNone(s[1..]);
    }
  }

  /** A `MediaStream` object: a track list that `removeTrack` empties in place. */
  class MediaStream {
    var tracks: seq<Track>

    constructor (initial: seq<Track>)
      ensures tracks == initial
    {
      tracks := initial;
    }

    /** Remove one track (`stream.removeTrack(t)`): every occurrence of `t` leaves the list. */
    method RemoveTrack(t: Track)
      modifies this
      ensures tracks == Except(old(tracks), t)
    {
      tracks := Except(tracks, t);
    }
  }
}
