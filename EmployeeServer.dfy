/**
 * The in-memory employee table of the Express server (`db.employees`) and its four routes.
 * A JSON record is a map from field names to values, and every id is modelled as one string
 * type, so the server's loose `==` between a stored id and the URL parameter is string equality.
 */
module EmployeeServer {
  import opened Wrappers

  type Record = map<string, string>

  /** `{ id, ...body }`: the body's own fields, with `id` added unless the body already has one. */
  function WithId(id: string, body: Record): (r: Record)
    ensures r.Keys == body.Keys + {"id"}
    ensures forall k :: k in body ==> r[k] == body[k]
    ensures "id" !in body ==> r["id"] == id
  {
    map["id" := id] + body
  }

  /** `e.id`, absent when the record has no `id` field. */
  function IdOf(r: Record): Option<string> {
    if "id" in r then Some(r["id"]) else None
  }

  predicate HasId(r: Record, id: string) {
    IdOf(r) == Some(id)
  }

  /** `rows.filter(e => e.id != id)`. */
  function Without(rows: seq<Record>, id: string): (r: seq<Record>)
    ensures |r| <= |rows|
    ensures forall i :: 0 <= i < |r| ==> !HasId(r[i], id)
  {
    if rows == [] then []
    else Without(rows[..|rows| - 1], id) + (if HasId(rows[|rows| - 1], id) then [] else [rows[|rows| - 1]])
  }

  /** Deleting twice is deleting once. */
  lemma {:induction false} WithoutIdempotent(rows: seq<Record>, id: string)
    ensures Without(Without(rows, id), id) == Without(rows, id)
  {
    if rows != [] {
      var init := rows[..|rows| - 1];
      WithoutIdempotent(init, id);
      WithoutAppendKept(Without(init, id), rows[|rows| - 1], id);
    }
  }

  /** Deleting an id nobody has changes nothing. */
  lemma {:induction false} WithoutAbsent(rows: seq<Record>, id: string)
    requires forall i :: 0 <= i < |rows| ==> !HasId(rows[i], id)
    ensures Without(rows, id) == rows
  {
    if rows != [] {
      var init, last := rows[..|rows| - 1], rows[|rows| - 1];
      forall i | 0 <= i < |init| ensures !HasId(init[i], id) {
        assert init[i] == rows[i];
      }
      WithoutAbsent(init, id);
      assert !HasId(last, id);
      calc {
        Without(rows, id);
        Without(init, id) + [last];
        init + [last];
        rows;
      }
    }
  }

  lemma WithoutAppendKept(kept: seq<Record>, last: Record, id: string)
    ensures Without(kept + (if HasId(last, id) then [] else [last]), id)
         == Without(kept, id) + (if HasId(last, id) then [] else [last])
  {
    if !HasId(last, id) {
      var k := kept + [last];
      assert k[..|k| - 1] == kept && k[|k| - 1] == last;
    } else {
      assert kept + [] == kept;
    }
  }

  /**
   * Every record whose id differs from `id` survives, in its original order: it moves forward
   * by exactly the number of records removed before it, and the result is that much shorter.
   */
  lemma {:induction false} WithoutKeepsOthers(rows: seq<Record>, id: string)
    ensures |Without(rows, id)| == |rows| - CountWithId(rows, id)
    ensures forall i :: 0 <= i < |rows| && !HasId(rows[i], id) ==>
              Shifted(rows, i, id) < |Without(rows, id)| && Without(rows, id)[Shifted(rows, i, id)] == rows[i]
  {
    if rows != [] {
      var init, last := rows[..|rows| - 1], rows[|rows| - 1];
      WithoutKeepsOthers(init, id);
      forall i | 0 <= i < |rows| && !HasId(rows[i], id)
        ensures Shifted(rows, i, id) < |Without(rows, id)| && Without(rows, id)[Shifted(rows, i, id)] == rows[i]
      {
        if i < |init| {
          assert rows[..i] == init[..i];
          assert init[i] == rows[i];
        } else {
          assert rows[..i] == init;
        }
      }
    }
  }

  /** Where the record at `i` ends up once the records with `id` before it are gone. */
  function Shifted(rows: seq<Record>, i: int, id: string): nat
    requires 0 <= i <= |rows|
  {
    i - CountWithId(rows[..i], id)
  }

  function CountWithId(rows: seq<Record>, id: string): (n: nat)
    ensures n <= |rows|
  {
    if rows == [] then 0
    else CountWithId(rows[..|rows| - 1], id) + (if HasId(rows[|rows| - 1], id) then 1 else 0)
  }

  /** The HTTP answer of a route: a status code and, for the employee routes, a JSON record. */
  datatype Response = Response(status: int, body: Option<Record>)

  class EmployeeTable {
    var rows: seq<Record>

    constructor ()
      ensures rows == []
    {
      rows := [];
    }

    /** GET /api/employees: the current table. */
    method List() returns (r: seq<Record>)
      ensures r == rows
    {
      r := rows;
    }

    /** `rows.findIndex(e => e.id == id)`: the first position whose record has the id, or none. */
    method FindIndex(id: string) returns (index: Option<nat>)
      ensures index.Some? ==> index.value < |rows| && HasId(rows[index.value], id)
      ensures index.Some? ==> forall j :: 0 <= j < index.value ==> !HasId(rows[j], id)
      ensures index.None? ==> forall j :: 0 <= j < |rows| ==> !HasId(rows[j], id)
    {
      var i := 0;
      while i < |rows|
        invariant 0 <= i <= |rows|
        invariant forall j :: 0 <= j < i ==> !HasId(rows[j], id)
      {
        if HasId(rows[i], id) {
          return Some(i);
        }
        i := i + 1;
      }
      return None;
    }

    /** POST /api/employees: appends `{ id: now, ...body }` and answers 201 with it. */
    method Create(body: Record, now: string) returns (resp: Response)
      modifies this
      ensures rows == old(rows) + [WithId(now, body)]
      ensures resp == Response(201, Some(WithId(now, body)))
    {
      var created := WithId(now, body);
      rows := rows + [created];
      resp := Response(201, Some(created));
    }

    /**
     * PUT /api/employees/:id: replaces the first record with that id by `{ id, ...body }`
     * and answers with it; answers 404 and changes nothing when no record has the id.
     */
    method Update(id: string, body: Record) returns (resp: Response)
      modifies this
      ensures (forall j :: 0 <= j < |old(rows)| ==> !HasId(old(rows)[j], id)) ==>
                rows == old(rows) && resp.status == 404 && resp.body == None
      ensures forall i :: (0 <= i < |old(rows)| && HasId(old(rows)[i], id)
                           && forall j :: 0 <= j < i ==> !HasId(old(rows)[j], id)) ==>
                rows == old(rows)[i := WithId(id, body)] && resp == Response(200, Some(WithId(id, body)))
    {
      var index := FindIndex(id);
      if index.Some? {
        rows := rows[index.value := WithId(id, body)];
        resp := Response(200, Some(WithId(id, body)));
      } else {
        resp := Response(404, None);
      }
    }

    /** DELETE /api/employees/:id: keeps, in order, exactly the records whose id differs. */
    method Delete(id: string) returns (resp: Response)
      modifies this
      ensures rows == Without(old(rows), id)
      ensures resp.status == 200
    {
      var kept: seq<Record> := [];
      var i := 0;
      while i < |rows|
        invariant 0 <= i <= |rows|
        invariant kept == Without(rows[..i], id)
      {
        assert rows[..i + 1][..i] == rows[..i];
        if !HasId(rows[i], id) {
          kept := kept + [rows[i]];
        }
        i := i + 1;
      }
      assert rows[..i] == rows;
      rows := kept;
      resp := Response(200, None);
    }
  }
}
