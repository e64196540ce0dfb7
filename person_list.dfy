/**
 * The administrator's list page: the admin gate, loading the records,
 * removing a deleted record from the shown list, and the payload of a
 * record's scannable code.
 */
module PersonList {
  import opened Wrappers
  import opened Types
  import Supabase
  import Storage
  import Routes

  /** `persons.filter(person => person.id !== id)` */
  function WithoutId(persons: seq<PersonInfo>, id: string): (r: seq<PersonInfo>)
    ensures |r| <= |persons|
    ensures forall i :: 0 <= i < |r| ==> r[i].id != id
  {
    if persons == [] then []
    else (if persons[0].id != id then [persons[0]] else []) + WithoutId(persons[1..], id)
  }

  /** Every record with another id remains, as often as it occurred: nothing else is dropped. */
  lemma {:induction false} WithoutIdCount(persons: seq<PersonInfo>, id: string, p: PersonInfo)
    requires p.id != id
    ensures multiset(WithoutId(persons, id))[p] == multiset(persons)[p]
  {
    if persons != [] {
      var first, rest := persons[0], WithoutId(persons[1..], id);
      WithoutIdCount(persons[1..], id, p);
      assert persons == [first] + persons[1..];
      assert multiset(persons) == multiset{first} + multiset(persons[1..]);
      if first.id != id {
        assert WithoutId(persons, id) == [first] + rest;
        assert multiset(WithoutId(persons, id)) == multiset{first} + multiset(rest);
      } else {
        assert WithoutId(persons, id) == rest;
        assert first != p;
      }
    }
  }

  /** A record with another id is in the filtered list exactly when it was in the list. */
  lemma WithoutIdMembers(persons: seq<PersonInfo>, id: string, p: PersonInfo)
    requires p.id != id
    ensures p in WithoutId(persons, id) <==> p in persons
  {
    WithoutIdCount(persons, id, p);
    assert p in WithoutId(persons, id) <==> multiset(WithoutId(persons, id))[p] > 0;
    assert p in persons <==> multiset(persons)[p] > 0;
  }

  /** The filter keeps relative order: it distributes over concatenation. */
  lemma {:induction false} WithoutIdConcat(a: seq<PersonInfo>, b: seq<PersonInfo>, id: string)
    ensures WithoutId(a + b, id) == WithoutId(a, id) + WithoutId(b, id)
  {
    if a == [] {
      assert a + b == b;
    } else {
      var head := if a[0].id != id then [a[0]] else [];
      assert (a + b)[0] == a[0];
      assert (a + b)[1..] == a[1..] + b;
      WithoutIdConcat(a[1..], b, id);
      assert head + (WithoutId(a[1..], id) + WithoutId(b, id)) == (head + WithoutId(a[1..], id)) + WithoutId(b, id);
    }
  }

  /** A list with no element of that id is left exactly as it was. */
  lemma {:induction false} WithoutIdAbsent(persons: seq<PersonInfo>, id: string)
    requires forall i :: 0 <= i < |persons| ==> persons[i].id != id
    ensures WithoutId(persons, id) == persons
  {
    if persons != [] {
      WithoutIdAbsent(persons[1..], id);
    }
  }

  /** Filtering twice by the same id is filtering once. */
  lemma WithoutIdIdempotent(persons: seq<PersonInfo>, id: string)
    ensures WithoutId(WithoutId(persons, id), id) == WithoutId(persons, id)
  {
    WithoutIdAbsent(WithoutId(persons, id), id);
  }

  /** `${window.location.origin}/view/${person.id}`: the payload of a record's scannable code. */
  function QrData(origin: string, id: string): (payload: string)
    ensures |origin| <= |payload| && payload[..|origin|] == origin && payload[|origin|..] == Routes.ViewPath(id)
  {
    origin + Routes.ViewPath(id)
  }

  /**
   * The payload is the origin followed by the view path, and the view route
   * reads the id back from that path exactly when the id is one non-empty
   * path segment.
   */
  lemma QrDataRoundTrip(origin: string, id: string)
    ensures var payload := QrData(origin, id);
      |origin| <= |payload| && payload[..|origin|] == origin &&
      (Routes.MatchView(payload[|origin|..]) == Some(id) <==> id != "" && '/' !in id)
  {
    var payload := QrData(origin, id);
    assert payload[|origin|..] == Routes.ViewPath(id);
    Routes.ViewRouteRoundTrip(id);
  }

  /** What the page shows. */
  datatype View = AccessDenied | Loading | NoData | Listing(persons: seq<PersonInfo>)

  /** How a delete request ends. */
  datatype DeleteOutcome =
    | NotConfirmed
    | Deleted(query: Storage.Query)
    | DeleteFailed(query: Storage.Query, error: Storage.PostgrestError)

  /** The list page's state; `isAdmin` comes from the administrator context. */
  class PersonListPage {
    const isAdmin: bool
    var persons: seq<PersonInfo>
    var loading: bool

    constructor(isAdmin: bool)
      ensures this.isAdmin == isAdmin
      ensures persons == [] && loading
    {
      this.isAdmin := isAdmin;
      persons := [];
      loading := true;
    }

    /**
     * The effect that loads the records; it is registered only past the admin
     * gate. A failed fetch is not caught, so the page stays loading.
     */
    method LoadData(reply: Storage.Reply<seq<Supabase.DatabasePersonInfo>>)
      modifies this
      ensures !isAdmin || reply.error.Some? ==> persons == old(persons) && loading == old(loading)
      ensures isAdmin && reply.error.None? ==>
        !loading && persons == Storage.GetPersonsData(reply).result.value
    {
      if isAdmin {
        var fetch := Storage.GetPersonsData(reply);
        if fetch.result.Success? {
          persons := fetch.result.value;
          loading := false;
        }
      }
    }

    /** A non-administrator sees the access-denied view and no record. */
    function Render(): (v: View)
      reads this
      ensures v == AccessDenied <==> !isAdmin
      ensures v == Loading <==> isAdmin && loading
      ensures v == NoData <==> isAdmin && !loading && persons == []
      ensures v.Listing? ==> isAdmin && v.persons == persons && persons != []
    {
      if !isAdmin then AccessDenied
      else if loading then Loading
      else if persons == [] then NoData
      else Listing(persons)
    }

    /**
     * `handleDelete`: without confirmation nothing is sent; after a
     * successful delete the record is dropped from the list; a failed delete
     * leaves the list as it was.
     */
    method HandleDelete(id: string, confirmed: bool, reply: Storage.Reply<()>) returns (outcome: DeleteOutcome)
      modifies this
      ensures loading == old(loading)
      ensures outcome.NotConfirmed? <==> !confirmed
      ensures !outcome.NotConfirmed? ==> outcome.query == Storage.DeleteById(id)
      ensures outcome.Deleted? <==> confirmed && reply.error.None?
      ensures outcome.Deleted? ==> persons == WithoutId(old(persons), id)
      ensures !outcome.Deleted? ==> persons == old(persons)
      ensures outcome.DeleteFailed? ==> outcome.error == reply.error.value
    {
      if !confirmed {
        return NotConfirmed;
      }
      var call := Storage.DeletePersonById(id, reply);
      match call.result
      case Success(_) =>
        persons := WithoutId(persons, id);
        outcome := Deleted(call.query);
      case Failure(e) =>
        outcome := DeleteFailed(call.query, e);
    }
  }
}
