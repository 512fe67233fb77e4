/**
 * What the `AppInventorTFJS` callbacks `reportResult` and `reportImage` do
 * to the extension's data, as functions on values.
 *
 * `org.json` is not modelled: a frame is the outcome of parsing it, either a
 * parse failure with the parser's message or, for every key, the point read
 * from it or the message of the `JSONException` that reading it throws,
 * whether the key is missing or its value is not an object of three numbers.
 * The wording of those messages is the parser's and is not fixed here. Coordinates are Java doubles that the extension only copies; the
 * model keeps them as an opaque value type.
 */
module Landmarks {
  import opened Wrappers
  import opened JavaStrings

  /** A coordinate, copied but never computed with. */
  type Coord = real

  /** The `x`, `y` and `z` of one landmark object. */
  datatype Point = Point(x: Coord, y: Coord, z: Coord)

  /** Reading one landmark: its point, or the message of the `JSONException` raised. */
  datatype Lookup = Found(point: Point) | Failed(message: string)

  /** For every key, what `res.getJSONObject(key)` and its three `getDouble` calls give. */
  type Fields = string -> Lookup

  /** A `reportResult` payload after `new JSONObject(result)`. */
  datatype Frame = Unparseable(message: string) | Parsed(fields: Fields)

  /** The landmark store: key to the `YailList` the accessors return. */
  type Store = map<string, seq<Coord>>

  /** The order in which `reportResult` writes the landmarks. */
  const WriteOrder: seq<string> := ["forehead", "chin", "leftCheek", "rightCheek", "leftEyeInnerCorner"]

  /** The keys the constructor puts into the store. */
  const LandmarkKeys: set<string> := {"forehead", "leftCheek", "rightCheek", "chin", "leftEyeInnerCorner"}

  /** The JSON parse-failure error code reported through the `Error` event. */
  const ErrorJsonParseFailed: int := 101

  /** Every stored value is the constructor's empty list or a triple. */
  predicate WellShaped(store: Store) {
    forall k :: k in store ==> store[k] == [] || |store[k]| == 3
  }

  /** The shape the component keeps its store in: the five keys, each with a well-shaped value. */
  predicate StoreShape(store: Store) {
    store.Keys == LandmarkKeys && WellShaped(store)
  }

  /** The store as the constructor leaves it: every key mapped to the empty list. */
  function InitialStore(): (s: Store)
    ensures StoreShape(s)
    ensures forall k :: k in s ==> s[k] == []
  {
    map k | k in LandmarkKeys :: []
  }

  /** `YailList.makeList(new Double[]{x, y, z})` */
  function AsList(p: Point): seq<Coord> {
    [p.x, p.y, p.z]
  }

  /** The store after a sequence of writes, and the message that stopped them, if any. */
  datatype Ingest = Ingest(store: Store, failure: Option<string>)

  /**
   * Writing `keys` in order, each key replaced by the list of its point; the
   * first key that fails to read stops the writes and leaves the later keys alone.
   */
  function WriteLandmarks(store: Store, fields: Fields, keys: seq<string>): Ingest
    decreases |keys|
  {
    if keys == [] then Ingest(store, None)
    else
      match fields(keys[0])
      case Failed(message) => Ingest(store, Some(message))
      case Found(p) => WriteLandmarks(store[keys[0] := AsList(p)], fields, keys[1..])
  }

  /** The writes all happen exactly when every key reads. */
  lemma {:induction false} WriteLandmarksSucceedsIff(store: Store, fields: Fields, keys: seq<string>)
    ensures WriteLandmarks(store, fields, keys).failure.None? <==> forall i :: 0 <= i < |keys| ==> fields(keys[i]).Found?
    decreases |keys|
  {
    if keys != [] && fields(keys[0]).Found? {
      WriteLandmarksSucceedsIff(store[keys[0] := AsList(fields(keys[0]).point)], fields, keys[1..]);
      assert forall i :: 1 <= i < |keys| ==> keys[i] == keys[1..][i - 1];
    }
  }

  /**
   * Writes only replace values, with triples, so the key set and the shape of
   * the values stay as they were when every key written is already present.
   */
  lemma {:induction false} WriteLandmarksKeepsKeys(store: Store, fields: Fields, keys: seq<string>)
    ensures (forall i :: 0 <= i < |keys| ==> keys[i] in store) ==> WriteLandmarks(store, fields, keys).store.Keys == store.Keys
    ensures WellShaped(store) ==> WellShaped(WriteLandmarks(store, fields, keys).store)
    decreases |keys|
  {
    if keys != [] && fields(keys[0]).Found? {
      var next := store[keys[0] := AsList(fields(keys[0]).point)];
      assert keys[0] in store ==> next.Keys == store.Keys;
      assert forall i :: 0 <= i < |keys[1..]| ==> keys[1..][i] == keys[i + 1];
      WriteLandmarksKeepsKeys(next, fields, keys[1..]);
    }
  }

  /** When every key reads, each written key holds its point and every other key is unchanged. */
  lemma {:induction false} WriteLandmarksAll(store: Store, fields: Fields, keys: seq<string>)
    requires forall i :: 0 <= i < |keys| ==> fields(keys[i]).Found?
    ensures var r := WriteLandmarks(store, fields, keys);
      && r.failure == None
      && (forall i :: 0 <= i < |keys| ==> keys[i] in r.store && r.store[keys[i]] == AsList(fields(keys[i]).point))
      && (forall k :: k in store && k !in keys ==> k in r.store && r.store[k] == store[k])
    decreases |keys|
  {
    if keys != [] {
      var next := store[keys[0] := AsList(fields(keys[0]).point)];
      WriteLandmarksAll(next, fields, keys[1..]);
      var r := WriteLandmarks(store, fields, keys);
      forall i | 0 <= i < |keys|
        ensures keys[i] in r.store && r.store[keys[i]] == AsList(fields(keys[i]).point)
      {
        if i > 0 {
          assert keys[i] == keys[1..][i - 1];
        }
      }
    }
  }

  /**
   * When key `j` is the first that fails, the writes of the keys before it
   * stand, nothing else is written and its message is the one reported.
   */
  lemma {:induction false} WriteLandmarksStopsAt(store: Store, fields: Fields, keys: seq<string>, j: nat)
    requires j < |keys|
    requires forall i :: 0 <= i < j ==> fields(keys[i]).Found?
    requires fields(keys[j]).Failed?
    ensures var r := WriteLandmarks(store, fields, keys);
      && r.failure == Some(fields(keys[j]).message)
      && r.store == WriteLandmarks(store, fields, keys[..j]).store
    decreases j
  {
    if j > 0 {
      var next := store[keys[0] := AsList(fields(keys[0]).point)];
      assert forall i :: 0 <= i < j - 1 ==> keys[1..][i] == keys[i + 1];
      WriteLandmarksStopsAt(next, fields, keys[1..], j - 1);
      assert keys[..j][1..] == keys[1..][..j - 1];
    }
  }

  /** What `reportResult` does to the store: parse, then write the five landmarks in order. */
  function IngestResult(store: Store, frame: Frame): (r: Ingest)
    ensures StoreShape(store) ==> StoreShape(r.store)
    ensures r.failure.None? <==> frame.Parsed? && forall k :: k in WriteOrder ==> frame.fields(k).Found?
    ensures frame.Unparseable? ==> r == Ingest(store, Some(frame.message))
  {
    match frame
    case Unparseable(message) => Ingest(store, Some(message))
    case Parsed(fields) =>
      WriteLandmarksKeepsKeys(store, fields, WriteOrder);
      WriteLandmarksSucceedsIff(store, fields, WriteOrder);
      WriteLandmarks(store, fields, WriteOrder)
  }

  /** A frame whose five landmarks all read sets each key to its point's `[x, y, z]`. */
  lemma IngestResultStoresPoints(store: Store, fields: Fields)
    requires forall k :: k in WriteOrder ==> fields(k).Found?
    ensures var r := IngestResult(store, Parsed(fields));
      && r.failure == None
      && forall k :: k in LandmarkKeys ==> r.store[k] == AsList(fields(k).point)
  {
    WriteLandmarksAll(store, fields, WriteOrder);
  }

  /**
   * A frame whose landmark `WriteOrder[j]` is the first to fail reports that
   * key's message, keeps the new values of the keys written before it and the
   * old values of the keys after it.
   */
  lemma IngestResultPartial(store: Store, fields: Fields, j: nat)
    requires store.Keys == LandmarkKeys
    requires j < |WriteOrder|
    requires forall i :: 0 <= i < j ==> fields(WriteOrder[i]).Found?
    requires fields(WriteOrder[j]).Failed?
    ensures var r := IngestResult(store, Parsed(fields));
      && r.failure == Some(fields(WriteOrder[j]).message)
      && (forall i :: 0 <= i < j ==> r.store[WriteOrder[i]] == AsList(fields(WriteOrder[i]).point))
      && (forall i :: j <= i < |WriteOrder| ==> r.store[WriteOrder[i]] == store[WriteOrder[i]])
  {
    WriteLandmarksStopsAt(store, fields, WriteOrder, j);
    WriteLandmarksAll(store, fields, WriteOrder[..j]);
    forall i | j <= i < |WriteOrder|
      ensures WriteOrder[i] !in WriteOrder[..j]
    {
      assert forall a, b :: 0 <= a < b < |WriteOrder| ==> WriteOrder[a] != WriteOrder[b];
    }
  }

  /** The image part of a data URL: everything after its first comma, or all of it. */
  function StripDataUrl(dataUrl: string): (r: string)
    ensures ',' !in dataUrl ==> r == dataUrl
    ensures ',' in dataUrl ==>
      && |r| < |dataUrl|
      && dataUrl == dataUrl[..|dataUrl| - |r| - 1] + [','] + r
      && ',' !in dataUrl[..|dataUrl| - |r| - 1]
  {
    var i := IndexOf(dataUrl, ',');
    assert i >= 0 ==> dataUrl == dataUrl[..i] + [','] + dataUrl[i + 1..];
    dataUrl[i + 1..]
  }

  /** Stripping undoes prefixing any comma-free header and a comma. */
  lemma StripDataUrlOf(header: string, payload: string)
    requires ',' !in header
    ensures StripDataUrl(header + "," + payload) == payload
  {
    IndexOfAfter(header, ',', payload);
    assert (header + "," + payload)[|header| + 1..] == payload;
  }
}
