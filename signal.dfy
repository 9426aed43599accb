/** Signaling envelopes and the engine's public event log. */
module Signal {
  import opened Media
  import opened Transport

  /** Creating or applying a local offer failed. */
  const ErrNegotiation: nat := 884761
  /** Answering a received offer failed. */
  const ErrAnswerOffer: nat := 352177
  /** Applying a received answer failed. */
  const ErrApplyAnswer: nat := 645167
  /** Adding a received candidate failed. */
  const ErrAddCandidate: nat := 518450

  /** The `data` field of an envelope, by the shape each word carries. */
  datatype Payload =
    | NoData
    | Session(desc: Desc)
    | Candidate(cdt: string)
    | TrackIds(ids: seq<string>)
    | Hints(hints: map<string, string>)
    | SocketIds(sockets: seq<string>)

  /** `{word, from?, to?, on?, data?, includeMe?}`; an absent field is `None`. */
  datatype Envelope = Envelope(
    word: string,
    from: Option<string>,
    to: Option<string>,
    on: Option<string>,
    data: Payload,
    includeMe: bool)

  /** An envelope of the mesh protocol: sender, optional addressee, no `on`. */
  function MeshEnv(word: string, from: string, to: Option<string>, data: Payload): Envelope
  {
    Envelope(word, Some(from), to, None, data, false)
  }

  /** An envelope of the hub protocol: no sender or addressee, optional `on`. */
  function HubEnv(word: string, on: Option<string>, data: Payload): Envelope
  {
    Envelope(word, None, None, on, data, false)
  }

  /** A payload that is a JSON array of strings, whatever word carried it. */
  function Strings(d: Payload): (r: Option<seq<string>>)
    ensures r.Some? <==> d.TrackIds? || d.SocketIds?
  {
    match d
    case TrackIds(ids) => Some(ids)
    case SocketIds(ids) => Some(ids)
    case _ => None
  }

  /** JavaScript truthiness of an optional string: present and non-empty. */
  predicate Truthy(o: Option<string>)
  {
    o.Some? && o.value != ""
  }

  /** The property key JavaScript uses for an optional string: an absent value becomes "undefined". */
  function KeyOf(o: Option<string>): string
  {
    if o.Some? then o.value else "undefined"
  }

  /** The names every plain object already answers with a truthy value, through `Object.prototype`. */
  const ObjectPrototypeNames: set<string> := {
    "constructor", "hasOwnProperty", "isPrototypeOf", "propertyIsEnumerable", "toString",
    "toLocaleString", "valueOf", "__proto__", "__defineGetter__", "__defineSetter__",
    "__lookupGetter__", "__lookupSetter__"}

  /**
   * The names an array used as a dictionary (`[]`) answers with a truthy value:
   * the methods of `Array.prototype` as of ECMAScript 2023, and the names of
   * `Object.prototype`. The array's own `length` is covered by `InheritedName`.
   */
  const ArrayPrototypeNames: set<string> := ObjectPrototypeNames + {
    "at", "concat", "copyWithin", "entries", "every", "fill", "filter", "find", "findIndex",
    "findLast", "findLastIndex", "flat", "flatMap", "forEach", "includes", "indexOf", "join",
    "keys", "lastIndexOf", "map", "pop", "push", "reduce", "reduceRight", "reverse", "shift",
    "slice", "some", "sort", "splice", "toReversed", "toSorted", "toSpliced", "unshift",
    "values", "with"}

  /** The value of a string of decimal digits. */
  function DecimalValue(s: string): nat
    requires forall i :: 0 <= i < |s| ==> '0' <= s[i] <= '9'
  {
    if s == [] then 0 else DecimalValue(s[..|s| - 1]) * 10 + (s[|s| - 1] as int - '0' as int)
  }

  /**
   * An array index: the canonical decimal form (no leading zero) of an
   * integer below 2^32 - 1. Storing under such a key may raise an array's
   * `length`.
   */
  predicate ArrayIndex(key: string)
  {
    && |key| > 0
    && (forall i :: 0 <= i < |key| ==> '0' <= key[i] <= '9')
    && (key[0] != '0' || |key| == 1)
    && DecimalValue(key) < 0xFFFF_FFFF
  }

  /**
   * An array's `length` after a value is stored under `key`: one past the
   * index when that is beyond the old length, otherwise unchanged. `delete`
   * never lowers it.
   */
  function GrownLength(len: nat, key: string): (r: nat)
    ensures r >= len
    ensures ArrayIndex(key) ==> DecimalValue(key) < r
    ensures !ArrayIndex(key) ==> r == len
    ensures r == len || (ArrayIndex(key) && r == DecimalValue(key) + 1)
  {
    if ArrayIndex(key) && DecimalValue(key) >= len then DecimalValue(key) + 1 else len
  }

  /** A one-digit name is an array index, and storing under it makes the length exceed that digit. */
  lemma DigitIndex(c: char, len: nat)
    requires '0' <= c <= '9'
    ensures ArrayIndex([c]) && DecimalValue([c]) == c as int - '0' as int
    ensures GrownLength(len, [c]) > c as int - '0' as int
  {
    assert [c][..0] == [];
  }

  /**
   * `d[key]` on an array `d` with no entry under `key` and `length` `len`:
   * truthy for a name the array inherits, and for `length` once it is
   * positive. Storing under `length` never succeeds: assigning an object to
   * an array's `length` raises a RangeError.
   */
  predicate InheritedName(key: string, len: nat)
  {
    key in ArrayPrototypeNames || (key == "length" && len > 0)
  }

  /** How a signal handler ended: returned early, did its work, or threw. */
  datatype Outcome = Ignored | Handled | Thrown

  /** One entry of an engine's public event stream. */
  datatype Event =
    | Error(code: nat)
    | ParticipantsChanged
    | PeerEntered(socketId: string)
    | PeerLeft(socketId: string)
    | TrackAdded(socketId: string)
    /** `subject` is the `id` the event carries; `None` stands for `undefined` or `null`. */
    | StateChanged(subject: Option<string>, state: string, value: string)
}
