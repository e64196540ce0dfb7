/**
 * The `/view/:id` route: the path the application navigates to (and encodes
 * in a record's scannable code) to show one record, and how the router reads
 * the `id` parameter back out of a path.
 */
module Routes {
  import opened Wrappers

  const ViewPrefix := "/view/"

  /** `/view/${id}` */
  function ViewPath(id: string): (path: string)
    ensures ViewPrefix <= path && path[|ViewPrefix|..] == id
  {
    ViewPrefix + id
  }

  /** Matching a path against `/view/:id`: the parameter is one non-empty segment after the prefix. */
  function MatchView(path: string): (id: Option<string>)
    ensures id.Some? ==> id.value != "" && '/' !in id.value && ViewPath(id.value) == path
    ensures id.None? ==> !(ViewPrefix <= path) || path[|ViewPrefix|..] == [] || '/' in path[|ViewPrefix|..]
  {
    if ViewPrefix <= path && |path| > |ViewPrefix| && '/' !in path[|ViewPrefix|..]
    then Some(path[|ViewPrefix|..])
    else None
  }

  /** The route gives back exactly the ids that are one non-empty path segment. */
  lemma ViewRouteRoundTrip(id: string)
    ensures MatchView(ViewPath(id)) == Some(id) <==> id != "" && '/' !in id
  {
    var path := ViewPath(id);
    assert path[|ViewPrefix|..] == id;
  }
}
