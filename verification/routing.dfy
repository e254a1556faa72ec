/**
 Tool names.  A backend publishes its tools as prefix_name; the muxer finds the backend by prefix and
 strips the prefix again, as do the approval executor and the profile resolver.
 */
module Routing {
  import opened Common
  import Resolver

  datatype Backend = Backend(id: string, toolPrefix: string)

  /** `tool` carries the prefix, with either separator. */
  predicate Carries(tool: string, prefix: string) {
    HasPrefix(tool, prefix + "_") || HasPrefix(tool, prefix + "/")
  }

  function Published(prefix: string, name: string): string {
    prefix + "_" + name
  }

  /** The two trims of the muxer and of stripToolPrefix. */
  function StripName(name: string, prefix: string): string {
    TrimPrefix(TrimPrefix(name, prefix + "_"), prefix + "/")
  }

  function StripToolPrefix(toolName: string, prefix: string): string {
    if prefix == "" then toolName else StripName(toolName, prefix)
  }

  /** Where a call goes: the backend, and the prefix to strip ("" for none). */
  datatype Route = Route(backendID: string, prefix: string)

  class ToolMuxer {
    var backendPrefixes: map<string, string>

    constructor ()
      ensures backendPrefixes == map[]
    {
      backendPrefixes := map[];
    }

    /** Rebuilds the prefix map from the list of backends; of two equal prefixes the later wins. */
    method RefreshPrefixes(backends: seq<Backend>)
      modifies this
      ensures backendPrefixes == PrefixMap(backends)
    {
      backendPrefixes := map[];
      for i := 0 to |backends|
        invariant backendPrefixes == PrefixMap(backends[..i])
      {
        assert backends[..i + 1][..i] == backends[..i];
        if backends[i].toolPrefix != "" {
          backendPrefixes := backendPrefixes[backends[i].toolPrefix := backends[i].id];
        }
      }
      assert backends[..|backends|] == backends;
    }

    /** Some prefix that the tool carries, whichever the map yields first; else the only backend there is. */
    method FindBackendForTool(tool: string, ids: seq<string>) returns (route: Option<Route>)
      ensures if exists p | p in backendPrefixes :: Carries(tool, p) then
                && route.Some? && route.value.prefix in backendPrefixes && Carries(tool, route.value.prefix)
                && route.value.backendID == backendPrefixes[route.value.prefix]
              else
                route == if |ids| == 1 then Some(Route(ids[0], "")) else None
    {
      var left := backendPrefixes.Keys;
      while left != {}
        invariant left <= backendPrefixes.Keys
        invariant forall p | p in backendPrefixes && p !in left :: !Carries(tool, p)
      {
        var prefix :| prefix in left;
        if HasPrefix(tool, prefix + "_") || HasPrefix(tool, prefix + "/") {
          return Some(Route(backendPrefixes[prefix], prefix));
        }
        left := left - {prefix};
      }
      return if |ids| == 1 then Some(Route(ids[0], "")) else None;
    }

    /** A prefix of the backend, or "" when it has none. */
    method GetPrefixForBackend(backendID: string) returns (prefix: string)
      ensures || (prefix in backendPrefixes && backendPrefixes[prefix] == backendID)
              || (prefix == "" && forall p | p in backendPrefixes :: backendPrefixes[p] != backendID)
    {
      var left := backendPrefixes.Keys;
      while left != {}
        invariant left <= backendPrefixes.Keys
        invariant forall p | p in backendPrefixes && p !in left :: backendPrefixes[p] != backendID
      {
        var p :| p in left;
        if backendPrefixes[p] == backendID {
          return p;
        }
        left := left - {p};
      }
      return "";
    }

    /** Publishing and routing back: with unnested prefixes a published name returns to its backend and loses exactly its prefix. */
    method RoundTrip(prefix: string, name: string, ids: seq<string>) returns (route: Option<Route>, stripped: string)
      requires prefix in backendPrefixes && Unnested(backendPrefixes.Keys)
      ensures route == Some(Route(backendPrefixes[prefix], prefix))
      ensures !HasPrefix(name, prefix + "/") ==> stripped == name
    {
      PublishedRoutesHome(backendPrefixes.Keys);
      assert Carries(Published(prefix, name), prefix) by {
        assert Published(prefix, name)[..|prefix| + 1] == prefix + "_";
      }
      route := FindBackendForTool(Published(prefix, name), ids);
      StripRoundTrip(prefix, name);
      stripped := StripName(Published(prefix, name), prefix);
    }
  }

  function PrefixMap(backends: seq<Backend>): (m: map<string, string>)
    ensures "" !in m
    ensures forall p | p in m :: Backend(m[p], p) in backends
    ensures forall b | b in backends && b.toolPrefix != "" :: b.toolPrefix in m
  {
    if backends == [] then map[]
    else
      var last := backends[|backends| - 1];
      var m := PrefixMap(backends[..|backends| - 1]);
      if last.toolPrefix != "" then m[last.toolPrefix := last.id] else m
  }

  /** Of the backends that share a prefix, the last one listed has it. */
  lemma {:induction false} LastListedWins(backends: seq<Backend>, i: nat)
    requires i < |backends| && backends[i].toolPrefix != ""
    requires forall j | i < j < |backends| :: backends[j].toolPrefix != backends[i].toolPrefix
    ensures var p := backends[i].toolPrefix; p in PrefixMap(backends) && PrefixMap(backends)[p] == backends[i].id
  {
    if i < |backends| - 1 {
      LastListedWins(backends[..|backends| - 1], i);
    }
  }

  // ---------- Routing ----------

  /** No configured prefix starts with another one followed by a separator. */
  predicate Unnested(prefixes: set<string>) {
    forall p, q | p in prefixes && q in prefixes && p != q :: !Carries(q, p)
  }

  /** Every published name carries its own prefix only, so it routes the same for every map order. */
  ghost predicate RoutesHome(prefixes: set<string>) {
    forall p, name: string, q | p in prefixes && q in prefixes && Carries(Published(p, name), q) :: q == p
  }

  lemma CarriesSplits(p: string, name: string, q: string)
    requires Carries(Published(p, name), q)
    ensures p == q || Carries(p, q) || Carries(q, p)
  {
    var tool := Published(p, name);
    var sep := tool[|q|];
    assert tool[..|q|] == q by {
      assert HasPrefix(tool, q + "_") ==> tool[..|q|] == (q + "_")[..|q|];
      assert HasPrefix(tool, q + "/") ==> tool[..|q|] == (q + "/")[..|q|];
    }
    assert sep == '_' || sep == '/' by {
      assert HasPrefix(tool, q + "_") ==> tool[..|q| + 1][|q|] == '_';
      assert HasPrefix(tool, q + "/") ==> tool[..|q| + 1][|q|] == '/';
    }
    if |q| < |p| {
      assert p[..|q| + 1] == tool[..|q| + 1] == q + [sep];
    } else if |q| > |p| {
      assert q[..|p| + 1] == tool[..|p| + 1] == p + "_";
    } else {
      assert tool[..|p|] == p;
    }
  }

  /** Exactly when published names route home for every name and every map order. */
  lemma PublishedRoutesHome(prefixes: set<string>)
    ensures RoutesHome(prefixes) <==> Unnested(prefixes)
  {
    if Unnested(prefixes) {
      forall p, name: string, q | p in prefixes && q in prefixes && Carries(Published(p, name), q)
        ensures q == p
      {
        CarriesSplits(p, name, q);
      }
    } else {
      var p, q :| p in prefixes && q in prefixes && p != q && Carries(q, p);
      var sep := if HasPrefix(q, p + "_") then "_" else "/";
      assert Published(q, "")[..|p| + 1] == q[..|p| + 1] == p + sep;
      assert Carries(Published(q, ""), p);
    }
  }

  // ---------- Stripping ----------

  lemma TrimOwn(prefix: string, name: string)
    ensures TrimPrefix(prefix + name, prefix) == name
  {
    assert (prefix + name)[..|prefix|] == prefix && (prefix + name)[|prefix|..] == name;
  }

  /** The muxer and the executor give back the name exactly when it does not start with "prefix/". */
  lemma StripRoundTrip(prefix: string, name: string)
    ensures StripName(Published(prefix, name), prefix) == name <==> !HasPrefix(name, prefix + "/")
    ensures prefix != "" ==> StripToolPrefix(Published(prefix, name), prefix) == StripName(Published(prefix, name), prefix)
  {
    assert Published(prefix, name) == (prefix + "_") + name;
    TrimOwn(prefix + "_", name);
    if HasPrefix(name, prefix + "/") {
      assert |TrimPrefix(name, prefix + "/")| < |name|;
    }
  }

  /** The resolver gives back every name published under the stored prefix. */
  lemma ResolverStripRoundTrip(store: Resolver.ProfileStore, backendID: string, prefix: string, name: string)
    requires backendID in store.prefixes && store.prefixes[backendID] == prefix && prefix != ""
    ensures Resolver.StripNamespacePrefix(store, Published(prefix, name), backendID) == name
  {
    var tool := Published(prefix, name);
    assert tool == prefix + ("_" + name);
    TrimOwn(prefix, "_" + name);
    TrimOwn("_", name);
    assert tool[..|prefix|] == prefix;
  }

  /** Without a stored prefix it gives back exactly the names that do not start with an underscore. */
  lemma ResolverDefaultStrip(store: Resolver.ProfileStore, backendID: string, name: string)
    requires backendID !in store.prefixes || store.prefixes[backendID] == ""
    ensures Resolver.StripNamespacePrefix(store, Published(backendID, name), backendID) == name <==> !HasPrefix(name, "_")
  {
    TrimOwn(backendID + "_", name);
    assert Published(backendID, name)[..|backendID| + 1] == backendID + "_";
    if HasPrefix(name, "_") {
      assert |TrimPrefix(name, "_")| < |name|;
    }
  }

  /** All three strip a published name to the same text whenever it does not start with "prefix/". */
  lemma StrippersAgree(store: Resolver.ProfileStore, backendID: string, prefix: string, name: string)
    requires backendID in store.prefixes && store.prefixes[backendID] == prefix && prefix != ""
    ensures var tool := Published(prefix, name);
            (StripName(tool, prefix) == StripToolPrefix(tool, prefix) == Resolver.StripNamespacePrefix(store, tool, backendID))
              <==> !HasPrefix(name, prefix + "/")
  {
    StripRoundTrip(prefix, name);
    ResolverStripRoundTrip(store, backendID, prefix, name);
  }

  // ---------- Editing the request ----------

  /** A decoded request body. */
  datatype Json = Text(text: string) | Object(fields: map<string, Json>) | Array(items: seq<Json>) | Scalar(literal: string)

  /** `params.name`, when it is there and is a string. */
  function ToolName(body: Json): Option<string> {
    if body.Object? && "params" in body.fields then
      var params := body.fields["params"];
      if params.Object? && "name" in params.fields && params.fields["name"].Text?
      then Some(params.fields["name"].text) else None
    else None
  }

  function WithToolName(body: Json, name: string): Json
    requires ToolName(body).Some?
  {
    var params := body.fields["params"];
    Object(body.fields["params" := Object(params.fields["name" := Text(name)])])
  }

  /** stripPrefixFromName: always rewrites the name. */
  function StripPrefixFromName(body: Json, prefix: string): Json {
    match ToolName(body)
    case None => body
    case Some(name) => WithToolName(body, StripName(name, prefix))
  }

  /** stripPrefixFromRequestBody: rewrites the name only when it changes. */
  function StripPrefixFromRequestBody(body: Json, prefix: string): Json {
    match ToolName(body)
    case None => body
    case Some(name) => if StripToolPrefix(name, prefix) != name then WithToolName(body, StripToolPrefix(name, prefix)) else body
  }

  /** The muxer and the executor make the same body of every request, and touch nothing but the name. */
  lemma BodiesAgree(body: Json, prefix: string)
    requires prefix != ""
    ensures StripPrefixFromName(body, prefix) == StripPrefixFromRequestBody(body, prefix)
    ensures ToolName(body).Some? ==>
              && ToolName(StripPrefixFromName(body, prefix)) == Some(StripName(ToolName(body).value, prefix))
              && WithToolName(StripPrefixFromName(body, prefix), ToolName(body).value) == body
  {
    if ToolName(body).Some? {
      var name := ToolName(body).value;
      var params := body.fields["params"];
      assert params.fields["name" := Text(name)] == params.fields;
      assert WithToolName(body, name) == body;
      var stripped := StripPrefixFromName(body, prefix);
      assert stripped.fields["params" := params] == body.fields;
      assert stripped.fields["params"].fields["name" := Text(name)] == params.fields;
    }
  }
}
