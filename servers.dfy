/** The server list: loading the user's servers from the panel, extracting
    identifier and name from each response entry, and narrowing the list by a
    search term. */
module Servers {
  import opened Js

  /** The `attributes` object of a response entry. */
  datatype RawAttributes = RawAttributes(identifier: Option<string>, name: Option<string>)

  /** One entry of the response's `data` list; any field may be missing. */
  datatype RawServer = RawServer(attributes: Option<RawAttributes>, identifier: Option<string>, name: Option<string>)

  /** The parsed response body; its `data` list may be missing. */
  datatype Body = Body(data: Option<seq<RawServer>>)

  /** A server as the selector keeps it. A field is undefined when the entry
      had it neither under `attributes` nor at the top level. */
  datatype ServerData = ServerData(identifier: Option<string>, name: Option<string>)

  /** How the list request ended: a non-2xx response, an exception, or a
      parsed body. An exception covers a network failure and a body that is
      not JSON, and also a body the extraction throws on (`null`, a truthy
      `data` that is not a list, a `null` entry): `Body` cannot express those,
      so they are given as `Threw`. */
  datatype FetchOutcome = NotOk(status: nat) | Threw | Loaded(body: Body)

  const LoadError := "Failed to load servers. Please try again."

  /** The result of an expression that may throw a `TypeError`. */
  datatype Eval<T> = Value(value: T) | TypeError

  // ---------------------------------------------------------------------
  // extraction

  /** `server.attributes?.identifier` */
  function AttributesIdentifier(s: RawServer): Option<string> {
    if s.attributes.Some? then s.attributes.value.identifier else None
  }

  /** `server.attributes?.name` */
  function AttributesName(s: RawServer): Option<string> {
    if s.attributes.Some? then s.attributes.value.name else None
  }

  /** One response entry mapped to a server: each field comes from
      `attributes` when it is truthy there, and from the top level otherwise. */
  function Extract(s: RawServer): (d: ServerData)
    ensures Truthy(AttributesIdentifier(s)) ==> d.identifier == AttributesIdentifier(s)
    ensures !Truthy(AttributesIdentifier(s)) ==> d.identifier == s.identifier
    ensures Truthy(AttributesName(s)) ==> d.name == AttributesName(s)
    ensures !Truthy(AttributesName(s)) ==> d.name == s.name
  {
    ServerData(Or(AttributesIdentifier(s), s.identifier), Or(AttributesName(s), s.name))
  }

  /** `(data.data || []).map(...)`: one server per entry, in the same order;
      a body without `data` gives no servers. */
  function ExtractServers(body: Body): (r: seq<ServerData>)
    ensures body.data.None? ==> r == []
    ensures body.data.Some? ==> |r| == |body.data.value|
    ensures body.data.Some? ==> forall i :: 0 <= i < |r| ==> r[i] == Extract(body.data.value[i])
  {
    match body.data
    case None => []
    case Some(list) => seq(|list|, i requires 0 <= i < |list| => Extract(list[i]))
  }

  // ---------------------------------------------------------------------
  // search

  /** The search predicate as the code evaluates it: the lowercased name is
      tested first and, only when it does not contain the lowercased term,
      the lowercased identifier; lowercasing an undefined field throws. */
  function MatchesSearch(s: ServerData, term: string): (r: Eval<bool>)
    ensures s.name.Some? && s.identifier.Some? ==> r == Value(Keeps(s, term))
    ensures r.TypeError? <==>
              s.name.None? || (!Includes(Lower(s.name.value), Lower(term)) && s.identifier.None?)
    ensures r.Value? ==> (r.value <==> Keeps(s, term))
  {
    if s.name.None? then TypeError
    else if Includes(Lower(s.name.value), Lower(term)) then Value(true)
    else if s.identifier.None? then TypeError
    else Value(Includes(Lower(s.identifier.value), Lower(term)))
  }

  /** The intended keep condition, for servers whose fields are defined: the
      lowercased name or identifier contains the lowercased term. */
  predicate Keeps(s: ServerData, term: string) {
    || (s.name.Some? && Includes(Lower(s.name.value), Lower(term)))
    || (s.identifier.Some? && Includes(Lower(s.identifier.value), Lower(term)))
  }

  /** `servers.filter(...)` with the search predicate: it throws as soon as the
      predicate throws on some server; otherwise it is the list of the servers
      the predicate accepts, in order, as `Filter` states it. */
  function SearchFilter(servers: seq<ServerData>, term: string): (r: Eval<seq<ServerData>>)
    ensures r.Value? <==> forall i :: 0 <= i < |servers| ==> MatchesSearch(servers[i], term).Value?
    ensures r.Value? ==> r.value == Filter(servers, s => MatchesSearch(s, term) == Value(true))
    decreases |servers|
  {
    if servers == [] then Value([])
    else
      match MatchesSearch(servers[0], term)
      case TypeError => TypeError
      case Value(keep) =>
        var rest := SearchFilter(servers[1..], term);
        assert forall i :: 1 <= i < |servers| ==> servers[i] == servers[1..][i - 1];
        if rest.TypeError? then TypeError
        else if keep then Value([servers[0]] + rest.value)
        else rest
  }

  /** When every server has both fields, the search never throws and keeps
      exactly the servers whose name or identifier contains the term. */
  lemma {:induction false} SearchFilterDefined(servers: seq<ServerData>, term: string)
    requires forall i :: 0 <= i < |servers| ==> servers[i].name.Some? && servers[i].identifier.Some?
    ensures SearchFilter(servers, term) == Value(Filter(servers, s => Keeps(s, term)))
    decreases |servers|
  {
    if servers != [] {
      SearchFilterDefined(servers[1..], term);
    }
  }

  /** An empty search keeps every server whose name is defined, even one
      without an identifier, because the name test already succeeds. */
  lemma {:induction false} EmptySearchKeepsAll(servers: seq<ServerData>)
    requires forall i :: 0 <= i < |servers| ==> servers[i].name.Some?
    ensures SearchFilter(servers, "") == Value(servers)
    decreases |servers|
  {
    if servers != [] {
      assert Lower("") == "";
      IncludesEmpty(Lower(servers[0].name.value));
      assert MatchesSearch(servers[0], "") == Value(true);
      EmptySearchKeepsAll(servers[1..]);
      assert servers == [servers[0]] + servers[1..];
    }
  }

  // ---------------------------------------------------------------------
  // the component's state

  class ServerSelector {
    var servers: seq<ServerData>
    var filteredServers: seq<ServerData>
    var searchTerm: string
    var isLoading: bool
    var error: Option<string>
    /** The search effect threw: the error escapes the effect uncaught, React
        unmounts the application and nothing is shown any more. */
    var crashed: bool

    /** The component mounts in the loading state with no servers. */
    constructor ()
      ensures servers == [] && filteredServers == [] && searchTerm == ""
      ensures isLoading && error == None && !crashed
    {
      servers := [];
      filteredServers := [];
      searchTerm := "";
      isLoading := true;
      error := None;
      crashed := false;
    }

    /** `fetchServers` up to its `await`: loading, with any earlier error
        cleared. */
    method BeginFetch()
      modifies this
      ensures isLoading && error == None
      ensures servers == old(servers) && filteredServers == old(filteredServers) && searchTerm == old(searchTerm)
      ensures crashed == old(crashed)
    {
      isLoading := true;
      error := None;
    }

    /** `fetchServers` after its `await`: a parsed body replaces both lists
        with the extracted servers; a non-2xx response or an exception shows
        the load error and keeps the lists. Loading ends either way. */
    method FetchResolved(outcome: FetchOutcome)
      requires isLoading
      requires outcome.NotOk? ==> !(200 <= outcome.status <= 299)
      modifies this
      ensures !isLoading
      ensures searchTerm == old(searchTerm) && crashed == old(crashed)
      ensures outcome.Loaded? ==>
                servers == ExtractServers(outcome.body) && filteredServers == servers && error == old(error)
      ensures !outcome.Loaded? ==>
                error == Some(LoadError) && servers == old(servers) && filteredServers == old(filteredServers)
    {
      match outcome {
        case Loaded(body) =>
          var extracted := ExtractServers(body);
          servers := extracted;
          filteredServers := extracted;
        case NotOk(_) =>
          error := Some(LoadError);
        case Threw =>
          error := Some(LoadError);
      }
      isLoading := false;
    }

    /** Typing in the search box. */
    method SetSearchTerm(term: string)
      modifies this
      ensures searchTerm == term
      ensures servers == old(servers) && filteredServers == old(filteredServers)
      ensures isLoading == old(isLoading) && error == old(error) && crashed == old(crashed)
    {
      searchTerm := term;
    }

    /** The effect that runs after `searchTerm` or `servers` changed: the
        shown list becomes the search result; when the search throws, the
        application crashes (`threw` reports it) and the list is not
        updated. */
    method RunSearchEffect() returns (threw: bool)
      modifies this
      ensures servers == old(servers) && searchTerm == old(searchTerm)
      ensures isLoading == old(isLoading) && error == old(error)
      ensures threw <==> SearchFilter(servers, searchTerm).TypeError?
      ensures !threw ==> filteredServers == SearchFilter(servers, searchTerm).value && crashed == old(crashed)
      ensures threw ==> crashed && filteredServers == old(filteredServers)
    {
      var result := SearchFilter(servers, searchTerm);
      match result
      case Value(shown) =>
        filteredServers := shown;
        threw := false;
      case TypeError =>
        crashed := true;
        threw := true;
    }
  }

  /** A fresh selector loads with `outcome` and then runs the search effect
      for `term`: what it shows afterwards, and whether the application
      crashed instead. */
  method LoadScenario(outcome: FetchOutcome, term: string)
    returns (servers: seq<ServerData>, shown: seq<ServerData>, error: Option<string>, loading: bool, crashed: bool)
    requires outcome.NotOk? ==> !(200 <= outcome.status <= 299)
    ensures !loading
    ensures crashed <==> outcome.Loaded? && SearchFilter(servers, term).TypeError?
    ensures !outcome.Loaded? ==> servers == [] && shown == [] && error == Some(LoadError)
    ensures outcome.Loaded? ==> servers == ExtractServers(outcome.body) && error == None
    ensures outcome.Loaded? && SearchFilter(servers, term).Value? ==> shown == SearchFilter(servers, term).value
  {
    var selector := new ServerSelector();
    selector.BeginFetch();
    selector.FetchResolved(outcome);
    selector.SetSearchTerm(term);
    var _ := selector.RunSearchEffect();
    servers, shown, error, loading, crashed :=
      selector.servers, selector.filteredServers, selector.error, selector.isLoading, selector.crashed;
  }
}
