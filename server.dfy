/** The `Server` of the http_server package: the id counter and the map of stored
    strings, updated in place by `add`, `update` and `delete`, read by `get`, and
    the `Handle` dispatcher that sends each HTTP method to one of them. Requests
    are served one at a time; the lock and the atomic counter are not modelled. */
module HttpServer {
  import opened Records
  import Fmt

  class Server {
    /** The last id handed out (the atomic counter). */
    var id: uint32
    /** The stored records. */
    var strs: map<uint32, string>

    /** The abstract state, as the operations' specifications see it. */
    function State(): Store
      reads this
    {
      Store(id, strs)
    }

    /** `New`: an empty store whose counter has handed out nothing. */
    constructor ()
      ensures State() == Store(0, map[])
      ensures KeysIssued(State())
    {
      id := 0;
      strs := map[];
    }

    /** `add`: on a decoded body, bumps the counter and stores the value under it. */
    method Add(body: Decoded) returns (r: Result<ResultItem>)
      modifies this
      ensures (State(), r) == AddStep(old(State()), body)
      ensures old(KeysIssued(State())) && old(id) < MaxUint32 ==>
        KeysIssued(State()) && (r.Ok? ==> r.value.key !in old(strs))
    {
      match body {
        case Err(e) =>
          return Err(e);
        case Ok(item) =>
          id := NextId(id);
          var key := id;
          strs := strs[key := item.value];
          r := Ok(item.(key := key));
      }
      if old(KeysIssued(State())) && old(id) < MaxUint32 {
        AddAllocatesFreshKey(old(State()), body.value);
      }
    }

    /** `update`: replaces the value of a stored key, or reports it not found. */
    method Update(body: Decoded) returns (r: Result<ResultItem>)
      modifies this`strs
      ensures (State(), r) == UpdateStep(old(State()), body)
      ensures strs.Keys == old(strs.Keys)
      ensures old(KeysIssued(State())) ==> KeysIssued(State())
    {
      match body {
        case Err(e) =>
          return Err(e);
        case Ok(item) =>
          if item.key !in strs {
            return Err(NotFound(item.key));
          }
          strs := strs[item.key := item.value];
          r := Ok(item);
      }
    }

    /** `delete`: removes a stored key, or reports it not found. */
    method Delete(body: Decoded) returns (r: Result<()>)
      modifies this`strs
      ensures (State(), r) == DeleteStep(old(State()), body)
      ensures strs.Keys <= old(strs.Keys)
      ensures old(KeysIssued(State())) ==> KeysIssued(State())
    {
      match body {
        case Err(e) =>
          return Err(e);
        case Ok(item) =>
          if item.key !in strs {
            return Err(NotFound(item.key));
          }
          strs := strs - {item.key};
          r := Ok(());
      }
    }

    /** `get`: one item per stored record, in the map's (unspecified) iteration order. */
    method Get() returns (items: seq<ResultItem>)
      ensures IsSnapshot(items, strs)
    {
      items := [];
      var rest := strs;
      while rest != map[]
        invariant forall k :: k in rest ==> k in strs && rest[k] == strs[k]
        invariant |items| + |rest| == |strs|
        invariant forall i :: 0 <= i < |items| ==>
          items[i].key in strs && items[i].key !in rest && strs[items[i].key] == items[i].value
        invariant forall i, j :: 0 <= i < j < |items| ==> items[i].key != items[j].key
        decreases |rest|
      {
        var k :| k in rest;
        items := items + [ResultItem(k, rest[k])];
        rest := rest - {k};
      }
    }

    /** `Handle`: dispatches on the HTTP method. The error, when there is one, is
        written instead of the result; for GET the snapshot is taken a second
        time after the switch and that second one is written. */
    method Handle(httpMethod: string, body: Decoded) returns (reply: Reply)
      modifies this
      ensures HandleStep(old(State()), httpMethod, body, State(), reply)
      ensures old(KeysIssued(State())) && (httpMethod == "POST" ==> old(id) < MaxUint32) ==>
        KeysIssued(State())
    {
      var result: Option<Payload> := None;
      var err: Option<string> := None;
      match httpMethod {
        case "GET" =>
          var items := Get();
          result := Some(Items(items));
        case "POST" =>
          var r := Add(body);
          // on failure `add` still returns an (empty) item; the error wins below
          result := Some(Item(if r.Ok? then r.value else ResultItem(0, "")));
          err := if r.Err? then Some(r.msg) else None;
        case "PUT" =>
          var r := Update(body);
          result := Some(Item(if r.Ok? then r.value else ResultItem(0, "")));
          err := if r.Err? then Some(r.msg) else None;
        case "DELETE" =>
          var r := Delete(body);
          err := if r.Err? then Some(r.msg) else None;
          result := Some(Text("OK"));
        case _ =>
          err := Some(UnsupportedMethod);
      }

      if httpMethod == "GET" {
        var items := Get();
        result := Some(Items(items));
      }

      if err.Some? {
        return HttpError(err.value);
      }
      reply := Json(result.value);
    }
  }

  /** A client: the store's life cycle from empty through two creates, a read, an
      update, a delete, a second read and a delete of the key already gone. */
  method Scenario() returns (replies: seq<Reply>)
    ensures |replies| == 7
    ensures replies[0] == Json(Item(ResultItem(1, "a")))
    ensures replies[1] == Json(Item(ResultItem(2, "b")))
    ensures replies[2].Json? && replies[2].payload.Items?
    ensures var items := replies[2].payload.items;
      |items| == 2 && ResultItem(1, "a") in items && ResultItem(2, "b") in items
    ensures replies[3] == Json(Item(ResultItem(1, "aa")))
    ensures replies[4] == Json(Text("OK"))
    ensures replies[5] == Json(Items([ResultItem(1, "aa")]))
    ensures replies[6] == HttpError("item with id 2 not found")
  {
    var s := new Server();
    var created := CreateTwoAndList(s);
    var edited := UpdateAndDelete(s);
    var listed := ListAndDeleteAgain(s);
    replies := created + edited + listed;
  }

  /** Two creates on an empty store, then a read. */
  method CreateTwoAndList(s: Server) returns (replies: seq<Reply>)
    requires s.State() == Store(0, map[])
    modifies s
    ensures s.State() == Store(2, map[1 := "a", 2 := "b"])
    ensures |replies| == 3
    ensures replies[0] == Json(Item(ResultItem(1, "a")))
    ensures replies[1] == Json(Item(ResultItem(2, "b")))
    ensures replies[2].Json? && replies[2].payload.Items?
    ensures var items := replies[2].payload.items;
      |items| == 2 && ResultItem(1, "a") in items && ResultItem(2, "b") in items
  {
    var r0 := s.Handle("POST", Ok(ResultItem(0, "a")));
    assert r0 == Json(Item(ResultItem(1, "a"))) && s.State() == Store(1, map[1 := "a"]);
    var r1 := s.Handle("POST", Ok(ResultItem(0, "b")));
    assert r1 == Json(Item(ResultItem(2, "b"))) && s.State() == Store(2, map[1 := "a", 2 := "b"]);
    var r2 := s.Handle("GET", Err("EOF"));
    assert r2.Json? && r2.payload.Items?;
    SnapshotCovers(r2.payload.items, s.strs, 1);
    SnapshotCovers(r2.payload.items, s.strs, 2);
    replies := [r0, r1, r2];
  }

  /** An update and a delete. */
  method UpdateAndDelete(s: Server) returns (replies: seq<Reply>)
    requires s.State() == Store(2, map[1 := "a", 2 := "b"])
    modifies s
    ensures s.State() == Store(2, map[1 := "aa"])
    ensures replies == [Json(Item(ResultItem(1, "aa"))), Json(Text("OK"))]
  {
    var r3 := s.Handle("PUT", Ok(ResultItem(1, "aa")));
    assert r3 == Json(Item(ResultItem(1, "aa"))) && s.State() == Store(2, map[1 := "aa", 2 := "b"]);
    var r4 := s.Handle("DELETE", Ok(ResultItem(2, "")));
    assert r4 == Json(Text("OK")) && s.State() == Store(2, map[1 := "aa"]);
    replies := [r3, r4];
  }

  /** A read of the one remaining record, and a delete of the key already gone. */
  method ListAndDeleteAgain(s: Server) returns (replies: seq<Reply>)
    requires s.State() == Store(2, map[1 := "aa"])
    modifies s
    ensures s.State() == Store(2, map[1 := "aa"])
    ensures replies == [Json(Items([ResultItem(1, "aa")])), HttpError("item with id 2 not found")]
  {
    assert NotFound(2) == "item with id 2 not found" by {
      assert Fmt.Decimal(2) == "2";
    }
    var r5 := s.Handle("GET", Err("EOF"));
    assert r5.Json? && r5.payload.Items?;
    assert r5.payload.items == [ResultItem(1, "aa")] by {
      SnapshotCovers(r5.payload.items, s.strs, 1);
    }
    var r6 := s.Handle("DELETE", Ok(ResultItem(2, "")));
    replies := [r5, r6];
  }
}
