/**
 * The `applications` REST resource of a logged-in user: the list of mapping
 * identifiers the user may run, and for one of them the image together with
 * the user's running container, if any.
 *
 * The database rows and the container manager's answers are inputs: `rows`
 * is what the accounting database returns for the user, `imageOf` answers the
 * image lookup and `containersOf` the lookup of running containers. The
 * lookups the resource makes are returned, in order, as `Query`s.
 */
module ApplicationResource {
  import opened Wrappers
  import opened Docker

  /** An application record of the accounting database. */
  datatype App = App(image: string)

  /** The policy under which a user may run an application. */
  datatype Policy = Policy(allowHome: bool, volumeSource: string, volumeTarget: string, volumeMode: string)

  /** One `(mapping_id, app, policy)` row of the accounting database. */
  datatype Row = Row(mappingId: string, app: App, policy: Policy)

  datatype ApiError = NotFound

  /** The resource representation; `container` is absent when none is running. */
  datatype Representation = Representation(image: Image, mappingId: string, container: Option<Container>)

  /** The container-manager lookups the resource makes. */
  datatype Query =
    | ImageQuery(reference: string)
    | ContainersQuery(userName: string, mappingId: string)

  datatype Retrieval = Retrieval(result: Result<Representation, ApiError>, queries: seq<Query>)

  /** The mapping identifiers of `rows`. */
  ghost function MappingIds(rows: seq<Row>): set<string> {
    set i | 0 <= i < |rows| :: rows[i].mappingId
  }

  /**
   * The rows as a table from mapping identifier to `(app, policy)`, built row
   * by row so that a later row replaces an earlier one with the same
   * identifier.
   */
  function AppsTable(rows: seq<Row>): (table: map<string, (App, Policy)>)
    ensures table.Keys == MappingIds(rows)
    decreases |rows|
  {
    if rows == [] then map[]
    else
      var init, last := rows[..|rows| - 1], rows[|rows| - 1];
      assert MappingIds(rows) == MappingIds(init) + {last.mappingId} by {
        forall id | id in MappingIds(rows) ensures id in MappingIds(init) + {last.mappingId} {
          var i :| 0 <= i < |rows| && rows[i].mappingId == id;
          if i < |rows| - 1 { assert init[i] == rows[i]; }
        }
        forall id | id in MappingIds(init) ensures id in MappingIds(rows) {
          var i :| 0 <= i < |init| && init[i].mappingId == id;
          assert rows[i] == init[i];
        }
      }
      AppsTable(init)[last.mappingId := (last.app, last.policy)]
  }

  /** When mapping identifiers repeat, the last row with the identifier is the one in the table. */
  lemma {:induction false} LastRowWins(rows: seq<Row>, i: nat)
    requires i < |rows|
    requires forall j :: i < j < |rows| ==> rows[j].mappingId != rows[i].mappingId
    ensures rows[i].mappingId in AppsTable(rows)
    ensures AppsTable(rows)[rows[i].mappingId] == (rows[i].app, rows[i].policy)
  {
    if i < |rows| - 1 {
      var init := rows[..|rows| - 1];
      LastRowWins(init, i);
    }
  }

  /** The identifiers `items` lists: one per row, in database order. */
  function Items(rows: seq<Row>): (ids: seq<string>)
    ensures |ids| == |rows|
    ensures forall i :: 0 <= i < |rows| ==> ids[i] == rows[i].mappingId
  {
    seq(|rows|, i requires 0 <= i < |rows| => rows[i].mappingId)
  }

  /** An identifier is listed exactly when the table has an entry for it. */
  lemma ItemsAreTableKeys(rows: seq<Row>, id: string)
    ensures id in Items(rows) <==> id in AppsTable(rows)
  {
  }

  /**
   * `retrieve` for `identifier`: not found when no row has that mapping
   * identifier, not found when the application's image is gone (without
   * asking for containers), otherwise the image with the first running
   * container, if there is one.
   */
  function Retrieve(rows: seq<Row>, identifier: string, userName: string,
                    imageOf: string -> Option<Image>,
                    containersOf: (string, string) -> seq<Container>): (r: Retrieval)
    ensures identifier !in MappingIds(rows) ==> r.result == Err(NotFound) && r.queries == []
    ensures identifier in MappingIds(rows) ==>
      var reference := AppsTable(rows)[identifier].0.image;
      && |r.queries| >= 1 && r.queries[0] == ImageQuery(reference)
      && (imageOf(reference).None? <==> r.result == Err(NotFound))
      && (imageOf(reference).None? ==> r.queries == [ImageQuery(reference)])
    ensures r.result.Ok? ==>
      r.queries == [ImageQuery(AppsTable(rows)[identifier].0.image), ContainersQuery(userName, identifier)]
    ensures r.result.Ok? ==>
      var rep := r.result.value;
      var containers := containersOf(userName, identifier);
      && rep.mappingId == identifier
      && Some(rep.image) == imageOf(AppsTable(rows)[identifier].0.image)
      && (rep.container.Some? <==> |containers| > 0)
      && (rep.container.Some? ==> rep.container.value == containers[0])
  {
    var table := AppsTable(rows);
    if identifier !in table then
      Retrieval(Err(NotFound), [])
    else
      var (app, policy) := table[identifier];
      var image := imageOf(app.image);
      if image.None? then
        Retrieval(Err(NotFound), [ImageQuery(app.image)])
      else
        var containers := containersOf(userName, identifier);
        var container := if |containers| > 0 then Some(containers[0]) else None;
        Retrieval(Ok(Representation(image.value, identifier, container)),
                  [ImageQuery(app.image), ContainersQuery(userName, identifier)])
  }

  /** Every identifier that `items` lists can be retrieved, as long as its image exists. */
  lemma ListedIdentifiersRetrievable(rows: seq<Row>, i: nat, userName: string,
                                     imageOf: string -> Option<Image>,
                                     containersOf: (string, string) -> seq<Container>)
    requires i < |rows|
    requires forall j :: 0 <= j < |rows| ==> imageOf(rows[j].app.image).Some?
    ensures Retrieve(rows, Items(rows)[i], userName, imageOf, containersOf).result.Ok?
  {
    var id := Items(rows)[i];
    var k := LastIndexOf(rows, id, i);
    LastRowWins(rows, k);
  }

  /** The last index at or after `from` whose row has mapping identifier `id`. */
  function LastIndexOf(rows: seq<Row>, id: string, from: nat): (k: nat)
    requires from < |rows| && rows[from].mappingId == id
    ensures from <= k < |rows| && rows[k].mappingId == id
    ensures forall j :: k < j < |rows| ==> rows[j].mappingId != id
    decreases |rows| - from
  {
    if exists j :: from < j < |rows| && rows[j].mappingId == id then
      var j :| from < j < |rows| && rows[j].mappingId == id;
      LastIndexOf(rows, id, j)
    else from
  }
}
