/** The record store of the http_server package as values: the stored items, the
    store's state (the id counter and the key-to-value map), the outcome of each of
    its four operations, and the request dispatcher as a relation between the
    state before a request, the state after it and the reply written. */
module Records {
  import Fmt

  newtype uint32 = x: int | 0 <= x < 0x1_0000_0000

  const MaxUint32: uint32 := 0xFFFF_FFFF

  /** A stored record; every request body is decoded into this shape too. */
  datatype ResultItem = ResultItem(key: uint32, value: string)

  /** A value, or the text of the error that stopped the operation. */
  datatype Result<T> = Ok(value: T) | Err(msg: string)

  datatype Option<T> = None | Some(value: T)

  /** What JSON-decoding a request body produced: the item, or the decoder's error. */
  type Decoded = Result<ResultItem>

  /** What is serialised on success: the snapshot, one record, or a literal string. */
  datatype Payload = Items(items: seq<ResultItem>) | Item(item: ResultItem) | Text(text: string)

  /** A reply is either an error message written as plain text with status 500,
      or a payload written as JSON. */
  datatype Reply = HttpError(msg: string) | Json(payload: Payload)

  /** The state of a server: the last id handed out and the stored records. */
  datatype Store = Store(id: uint32, strs: map<uint32, string>)

  const UnsupportedMethod: string := "unsupported method"

  /** `item with id %d not found`. */
  function NotFound(key: uint32): string {
    "item with id " + Fmt.Decimal(key as nat) + " not found"
  }

  /** The not-found message names the key it is about. */
  lemma NotFoundNamesKey(a: uint32, b: uint32)
    ensures NotFound(a) == NotFound(b) ==> a == b
  {
    var prefix, suffix := "item with id ", " not found";
    var da, db := Fmt.Decimal(a as nat), Fmt.Decimal(b as nat);
    if NotFound(a) == NotFound(b) {
      assert |da| == |db|;
      assert da == NotFound(a)[|prefix|..|prefix| + |da|];
      assert db == NotFound(b)[|prefix|..|prefix| + |db|];
      Fmt.DecimalInjective(a as nat, b as nat);
    }
  }

  /** The counter's `Add(1)`: 32-bit unsigned addition, which wraps to 0. */
  function NextId(id: uint32): (r: uint32)
    ensures r as int == (id as int + 1) % 0x1_0000_0000
  {
    if id == MaxUint32 then 0 else id + 1
  }

  /** Every stored key was handed out by the counter: it lies in 1..id. */
  ghost predicate KeysIssued(s: Store) {
    forall k :: k in s.strs ==> 1 <= k <= s.id
  }

  // ---------------------------------------------------------------------------
  // The four operations, as functions of the state before them

  /** `add`: a decode failure changes nothing; otherwise the counter is bumped
      and the value is stored under the new counter value. */
  function AddStep(s: Store, body: Decoded): (Store, Result<ResultItem>) {
    match body
    case Err(e) => (s, Err(e))
    case Ok(item) =>
      var key := NextId(s.id);
      (Store(key, s.strs[key := item.value]), Ok(item.(key := key)))
  }

  /** `update`: replaces the value of a stored key, or fails with not-found. */
  function UpdateStep(s: Store, body: Decoded): (Store, Result<ResultItem>) {
    match body
    case Err(e) => (s, Err(e))
    case Ok(item) =>
      if item.key !in s.strs then (s, Err(NotFound(item.key)))
      else (s.(strs := s.strs[item.key := item.value]), Ok(item))
  }

  /** `delete`: removes a stored key, or fails with not-found. */
  function DeleteStep(s: Store, body: Decoded): (Store, Result<()>) {
    match body
    case Err(e) => (s, Err(e))
    case Ok(item) =>
      if item.key !in s.strs then (s, Err(NotFound(item.key)))
      else (s.(strs := s.strs - {item.key}), Ok(()))
  }

  /** `get`: items lists every entry of m exactly once, in some order. */
  ghost predicate IsSnapshot(items: seq<ResultItem>, m: map<uint32, string>) {
    && |items| == |m|
    && (forall i :: 0 <= i < |items| ==> items[i].key in m && m[items[i].key] == items[i].value)
    && (forall i, j :: 0 <= i < j < |items| ==> items[i].key != items[j].key)
  }

  /** `Handle`: the method picks the operation; an error, when there is one, is
      written instead of the result; GET answers with a snapshot of the state. */
  ghost predicate HandleStep(s: Store, httpMethod: string, body: Decoded, s': Store, reply: Reply) {
    match httpMethod
    case "GET" =>
      s' == s && reply.Json? && reply.payload.Items? && IsSnapshot(reply.payload.items, s.strs)
    case "POST" =>
      var (t, r) := AddStep(s, body);
      s' == t && reply == (if r.Err? then HttpError(r.msg) else Json(Item(r.value)))
    case "PUT" =>
      var (t, r) := UpdateStep(s, body);
      s' == t && reply == (if r.Err? then HttpError(r.msg) else Json(Item(r.value)))
    case "DELETE" =>
      var (t, r) := DeleteStep(s, body);
      s' == t && reply == (if r.Err? then HttpError(r.msg) else Json(Text("OK")))
    case _ =>
      s' == s && reply == HttpError(UnsupportedMethod)
  }

  // ---------------------------------------------------------------------------
  // What each operation promises

  /** A failed decode leaves the counter and the map alone: the counter is only
      bumped once the body has been decoded. */
  lemma AddDecodeFailure(s: Store, e: string)
    ensures AddStep(s, Err(e)) == (s, Err(e))
  {
  }

  /** A successful `add` bumps the counter by one, returns the request's value
      under the new counter value and adds exactly that entry; below the wrap the
      key is fresh and the store grows by one. */
  lemma AddAllocatesFreshKey(s: Store, item: ResultItem)
    requires KeysIssued(s) && s.id < MaxUint32
    ensures var (t, r) := AddStep(s, Ok(item));
      && t.id as int == s.id as int + 1
      && r == Ok(ResultItem(t.id, item.value))
      && t.id !in s.strs
      && t.strs.Keys == s.strs.Keys + {t.id}
      && |t.strs| == |s.strs| + 1
      && t.strs[t.id] == item.value
      && (forall k :: k in s.strs ==> t.strs[k] == s.strs[k])
      && KeysIssued(t)
  {
  }

  /** `update` of an absent key fails with its not-found message and changes
      nothing; of a present key it changes that one value and returns the
      request item. */
  lemma UpdateChangesOnlyThatValue(s: Store, item: ResultItem)
    ensures var (t, r) := UpdateStep(s, Ok(item));
      && t.id == s.id
      && (item.key !in s.strs ==> t == s && r == Err(NotFound(item.key)))
      && (item.key in s.strs ==>
            && r == Ok(item)
            && t.strs.Keys == s.strs.Keys
            && t.strs[item.key] == item.value
            && (forall k :: k in s.strs && k != item.key ==> t.strs[k] == s.strs[k]))
  {
  }

  /** `delete` of an absent key fails with its not-found message and changes
      nothing; of a present key it removes exactly that key and never lowers
      the counter. */
  lemma DeleteRemovesExactlyOne(s: Store, item: ResultItem)
    ensures var (t, r) := DeleteStep(s, Ok(item));
      && t.id == s.id
      && (item.key !in s.strs ==> t == s && r == Err(NotFound(item.key)))
      && (item.key in s.strs ==>
            && r == Ok(())
            && t.strs.Keys == s.strs.Keys - {item.key}
            && |t.strs| == |s.strs| - 1
            && (forall k :: k in t.strs ==> t.strs[k] == s.strs[k]))
  {
  }

  // ---------------------------------------------------------------------------
  // Snapshots

  function KeysOf(items: seq<ResultItem>): set<uint32> {
    if items == [] then {} else KeysOf(items[..|items| - 1]) + {items[|items| - 1].key}
  }

  lemma {:induction false} KeysOfMember(items: seq<ResultItem>, k: uint32)
    ensures k in KeysOf(items) <==> exists i :: 0 <= i < |items| && items[i].key == k
  {
    if items != [] {
      var init := items[..|items| - 1];
      KeysOfMember(init, k);
      if k in KeysOf(init) {
        var i :| 0 <= i < |init| && init[i].key == k;
        assert items[i].key == k;
      }
      if i :| 0 <= i < |items| && items[i].key == k {
        if i < |init| {
          assert init[i].key == k;
        }
      }
    }
  }

  lemma {:induction false} KeysOfSize(items: seq<ResultItem>)
    requires forall i, j :: 0 <= i < j < |items| ==> items[i].key != items[j].key
    ensures |KeysOf(items)| == |items|
  {
    if items != [] {
      var init := items[..|items| - 1];
      KeysOfSize(init);
      var last := items[|items| - 1].key;
      KeysOfMember(init, last);
    }
  }

  /** A snapshot lists every key of the map. */
  lemma SnapshotCovers(items: seq<ResultItem>, m: map<uint32, string>, k: uint32)
    requires IsSnapshot(items, m) && k in m
    ensures exists i :: 0 <= i < |items| && items[i] == ResultItem(k, m[k])
  {
    KeysOfSize(items);
    var ks := KeysOf(items);
    forall k' | k' in ks ensures k' in m {
      KeysOfMember(items, k');
    }
    assert ks <= m.Keys;
    assert |m.Keys - ks| == |m.Keys| - |ks| == 0;
    assert k in ks;
    KeysOfMember(items, k);
    var i :| 0 <= i < |items| && items[i].key == k;
    assert items[i] == ResultItem(k, m[k]);
  }

  /** Two snapshots of the same map hold the same records: reading twice with no
      write in between answers the same set, only the order may differ. */
  lemma SnapshotsAgree(a: seq<ResultItem>, b: seq<ResultItem>, m: map<uint32, string>)
    requires IsSnapshot(a, m) && IsSnapshot(b, m)
    ensures |a| == |b|
    ensures forall x :: x in a <==> x in b
  {
    forall x | x in a ensures x in b {
      SnapshotCovers(b, m, x.key);
    }
    forall x | x in b ensures x in a {
      SnapshotCovers(a, m, x.key);
    }
  }

  // ---------------------------------------------------------------------------
  // The dispatcher

  /** A method outside GET, POST, PUT and DELETE is refused and changes nothing. */
  lemma UnsupportedMethodRefused(s: Store, httpMethod: string, body: Decoded, s': Store, reply: Reply)
    requires httpMethod !in {"GET", "POST", "PUT", "DELETE"}
    ensures HandleStep(s, httpMethod, body, s', reply) <==> s' == s && reply == HttpError(UnsupportedMethod)
  {
  }

  /** An error always wins over the result: DELETE answers "OK" exactly when the
      key was present, and a failed delete writes the error, not "OK". */
  lemma DeleteErrorWinsOverOk(s: Store, body: Decoded, s': Store, reply: Reply)
    requires HandleStep(s, "DELETE", body, s', reply)
    ensures reply == Json(Text("OK")) <==> body.Ok? && body.value.key in s.strs
    ensures body.Err? ==> reply == HttpError(body.msg) && s' == s
    ensures body.Ok? && body.value.key !in s.strs ==> reply == HttpError(NotFound(body.value.key)) && s' == s
  {
  }

  /** GET never fails and never writes. */
  lemma GetNeverFails(s: Store, body: Decoded, s': Store, reply: Reply)
    requires HandleStep(s, "GET", body, s', reply)
    ensures s' == s && reply.Json? && reply.payload.Items?
    ensures forall k :: k in s.strs ==> ResultItem(k, s.strs[k]) in reply.payload.items
  {
    forall k | k in s.strs ensures ResultItem(k, s.strs[k]) in reply.payload.items {
      SnapshotCovers(reply.payload.items, s.strs, k);
    }
  }

  /** Every request keeps every stored key within 1..id, and no request lowers
      the counter, as long as a POST does not find the counter at its maximum. */
  lemma HandleKeepsKeysIssued(s: Store, httpMethod: string, body: Decoded, s': Store, reply: Reply)
    requires HandleStep(s, httpMethod, body, s', reply)
    requires KeysIssued(s)
    requires httpMethod == "POST" ==> s.id < MaxUint32
    ensures KeysIssued(s') && s.id <= s'.id
    ensures httpMethod == "POST" && reply.Json? ==>
      reply.payload.Item? && reply.payload.item.key == s'.id == s.id + 1 && s'.id !in s.strs
  {
  }

  // ---------------------------------------------------------------------------
  // Runs: a sequence of requests served one after another

  datatype Request = Request(httpMethod: string, body: Decoded)

  /** states[i] is the state before requests[i], states[i + 1] the state after it. */
  ghost predicate IsRun(states: seq<Store>, requests: seq<Request>, replies: seq<Reply>) {
    && |states| == |requests| + 1
    && |replies| == |requests|
    && forall i :: 0 <= i < |requests| ==>
         HandleStep(states[i], requests[i].httpMethod, requests[i].body, states[i + 1], replies[i])
  }

  /** No POST of the run finds the counter at its maximum. */
  ghost predicate NoWrap(states: seq<Store>, requests: seq<Request>)
    requires |states| == |requests| + 1
  {
    forall i :: 0 <= i < |requests| && requests[i].httpMethod == "POST" ==> states[i].id < MaxUint32
  }

  lemma {:induction false} RunKeepsKeysIssued(states: seq<Store>, requests: seq<Request>, replies: seq<Reply>, j: nat)
    requires IsRun(states, requests, replies) && NoWrap(states, requests)
    requires KeysIssued(states[0]) && j < |states|
    ensures KeysIssued(states[j])
    ensures forall i :: 0 <= i <= j ==> states[i].id <= states[j].id
  {
    if j > 0 {
      RunKeepsKeysIssued(states, requests, replies, j - 1);
      var r := requests[j - 1];
      HandleKeepsKeysIssued(states[j - 1], r.httpMethod, r.body, states[j], replies[j - 1]);
    }
  }

  /** Keys handed out by successful POSTs strictly increase along a run, so no
      key is handed out twice, even after it has been deleted, and each is new
      to the store when it is handed out. */
  lemma IssuedKeysIncrease(states: seq<Store>, requests: seq<Request>, replies: seq<Reply>, i: nat, j: nat)
    requires IsRun(states, requests, replies) && NoWrap(states, requests) && KeysIssued(states[0])
    requires i < j < |requests|
    requires requests[i].httpMethod == "POST" && replies[i].Json?
    requires requests[j].httpMethod == "POST" && replies[j].Json?
    ensures replies[i].payload.Item? && replies[j].payload.Item?
    ensures replies[i].payload.item.key < replies[j].payload.item.key
    ensures replies[j].payload.item.key !in states[j].strs
  {
    RunKeepsKeysIssued(states, requests, replies, i);
    RunKeepsKeysIssued(states, requests, replies, j);
    HandleKeepsKeysIssued(states[i], "POST", requests[i].body, states[i + 1], replies[i]);
    HandleKeepsKeysIssued(states[j], "POST", requests[j].body, states[j + 1], replies[j]);
  }
}
