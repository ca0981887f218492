/** Where the registration closure of NewRuntimeProviderJS files an
    announced callback: the RPC table, the realtime Before/After tables, or
    one of the typed request slots, which exist only for a closed set of
    short ids. */
module Registry {
  import opened Common

  /** The short ids with a typed Before and a typed After slot (the cases
      of the two switches, which list the same ids). */
  const KnownShortIds: set<string> := {
      "getaccount", "updateaccount", "authenticateapple", "authenticatecustom",
      "authenticatedevice", "authenticateemail", "authenticatefacebook",
      "authenticatefacebookinstantgame", "authenticategamecenter", "authenticategoogle",
      "authenticatesteam", "listchannelmessages", "listfriends", "addfriends", "deletefriends",
      "blockfriends", "importfacebookfriends", "creategroup", "updategroup", "deletegroup",
      "joingroup", "leavegroup", "addgroupusers", "bangroupusers", "kickgroupusers",
      "promotegroupusers", "listgroupusers", "listusergroups", "listgroups",
      "deleteleaderboardrecord", "listleaderboardrecords", "writeleaderboardrecord",
      "listleaderboardrecordsaroundowner", "linkapple", "linkcustom", "linkdevice", "linkemail",
      "linkfacebook", "linkfacebookinstantgame", "linkgamecenter", "linkgoogle", "linksteam",
      "listmatches", "listnotifications", "deletenotification", "liststorageobjects",
      "readstorageobjects", "writestorageobjects", "deletestorageobjects", "jointournament",
      "listtournamentrecords", "listtournaments", "writetournamentrecord",
      "listtournamentrecordsaroundowner", "unlinkapple", "unlinkcustom", "unlinkdevice",
      "unlinkemail", "unlinkfacebook", "unlinkfacebookinstantgame", "unlinkgamecenter",
      "unlinkgoogle", "unlinksteam", "getusers", "event"
    }

  /** The typed After hooks that pass both the response and the request. */
  const OutAndInIds: set<string> := {
      "authenticateapple", "authenticatecustom", "authenticatedevice", "authenticateemail",
      "authenticatefacebook", "authenticatefacebookinstantgame", "authenticategamecenter",
      "authenticategoogle", "authenticatesteam", "listchannelmessages", "creategroup",
      "listgroupusers", "listusergroups", "listgroups", "listleaderboardrecords",
      "writeleaderboardrecord", "listleaderboardrecordsaroundowner", "listmatches",
      "listnotifications", "liststorageobjects", "readstorageobjects", "writestorageobjects",
      "listtournamentrecords", "listtournaments", "writetournamentrecord",
      "listtournamentrecordsaroundowner", "getusers"
    }

  /** The typed After hooks that pass only the response. */
  const OutOnlyIds: set<string> := {"getaccount", "listfriends"}

  /** Which of (response, request) a typed After wrapper hands to AfterReq;
      the remaining ones pass a nil response and the request. */
  datatype AfterShape = OutOnly | InOnly | OutAndIn

  function AfterShapeOf(short: string): AfterShape
  {
    if short in OutOnlyIds then OutOnly
    else if short in OutAndInIds then OutAndIn
    else InOnly
  }

  /** RTAPI_PREFIX and API_PREFIX, whose values are not part of this model. */
  datatype Prefixes = Prefixes(rt: string, api: string)

  /** Where an announcement goes. */
  datatype Route = ToRpc | ToBeforeRt | ToAfterRt | ToBeforeReq(short: string) | ToAfterReq(short: string) | Dropped

  /** The classification of one announcement of (mode, id). */
  function RouteOf(mode: ExecutionMode, id: string, px: Prefixes): (r: Route)
  {
    match mode
    case RPC => ToRpc
    case Before =>
      if HasPrefix(id, Lower(px.rt)) then ToBeforeRt
      else if HasPrefix(id, Lower(px.api)) then
        var short := TrimPrefix(id, Lower(px.api));
        if short in KnownShortIds then ToBeforeReq(short) else Dropped
      else Dropped
    case After =>
      if HasPrefix(id, Lower(px.rt)) then ToAfterRt
      else if HasPrefix(id, Lower(px.api)) then
        var short := TrimPrefix(id, Lower(px.api));
        if short in KnownShortIds then ToAfterReq(short) else Dropped
      else Dropped
    case _ => Dropped
  }

  /** The registration tables: rpcFunctions, beforeRtFunctions and
      afterRtFunctions by id, and the typed slots of beforeReqFunctions and
      afterReqFunctions by short id. Every entry records the id its wrapper
      passes on to the provider. */
  datatype Tables = Tables(
    rpc: map<string, string>,
    beforeRt: map<string, string>,
    afterRt: map<string, string>,
    beforeReq: map<string, string>,
    afterReq: map<string, string>)

  const NoTables := Tables(map[], map[], map[], map[], map[])

  /** The tables after filing `id` along route `r`: one entry written, the
      last registration for a key wins. */
  function ApplyRoute(t: Tables, r: Route, id: string): Tables
  {
    match r
    case ToRpc => t.(rpc := t.rpc[id := id])
    case ToBeforeRt => t.(beforeRt := t.beforeRt[id := id])
    case ToAfterRt => t.(afterRt := t.afterRt[id := id])
    case ToBeforeReq(short) => t.(beforeReq := t.beforeReq[short := id])
    case ToAfterReq(short) => t.(afterReq := t.afterReq[short := id])
    case Dropped => t
  }

  /** An announcement of the init module. */
  datatype Announcement = Announcement(mode: ExecutionMode, id: string)

  /** The tables after a sequence of announcements, in order. */
  function AnnounceAll(t: Tables, px: Prefixes, anns: seq<Announcement>): Tables
    decreases |anns|
  {
    if anns == [] then t
    else
      var a := anns[|anns| - 1];
      var prev := AnnounceAll(t, px, anns[..|anns| - 1]);
      ApplyRoute(prev, RouteOf(a.mode, a.id, px), a.id)
  }

  /** Typed slots exist only for the known short ids. */
  predicate SlotsKnown(t: Tables)
  {
    t.beforeReq.Keys <= KnownShortIds && t.afterReq.Keys <= KnownShortIds
  }

  /** The maps and typed-slot structs the registration closure writes. */
  class Registrations {
    var rpc: map<string, string>
    var beforeRt: map<string, string>
    var afterRt: map<string, string>
    var beforeReq: map<string, string>
    var afterReq: map<string, string>

    function Current(): Tables
      reads this
    {
      Tables(rpc, beforeRt, afterRt, beforeReq, afterReq)
    }

    constructor ()
      ensures Current() == NoTables
    {
      rpc, beforeRt, afterRt, beforeReq, afterReq := map[], map[], map[], map[], map[];
    }

    /** The announce closure: a switch on the mode, then the prefix tests
        and the switch on the short id. */
    method Announce(mode: ExecutionMode, id: string, px: Prefixes)
      modifies this
      ensures Current() == ApplyRoute(old(Current()), RouteOf(mode, id, px), id)
    {
      var rtPrefix := Lower(px.rt);
      var apiPrefix := Lower(px.api);
      if mode == RPC {
        rpc := rpc[id := id];
      } else if mode == Before {
        if HasPrefix(id, rtPrefix) {
          beforeRt := beforeRt[id := id];
        } else if HasPrefix(id, apiPrefix) {
          var short := TrimPrefix(id, apiPrefix);
          if short in KnownShortIds {
            beforeReq := beforeReq[short := id];
          }
        }
      } else if mode == After {
        if HasPrefix(id, rtPrefix) {
          afterRt := afterRt[id := id];
        } else if HasPrefix(id, apiPrefix) {
          var short := TrimPrefix(id, apiPrefix);
          if short in KnownShortIds {
            afterReq := afterReq[short := id];
          }
        }
      }
    }
  }

  /** Every RPC id registers, under itself, whatever its shape. */
  lemma RpcAlwaysRegisters(t: Tables, id: string, px: Prefixes)
    ensures var t' := ApplyRoute(t, RouteOf(RPC, id, px), id);
      id in t'.rpc && t'.rpc[id] == id && t'.(rpc := t.rpc) == t
  {
  }

  /** A Before id lands in the realtime table exactly when it starts with
      the lower-cased realtime prefix. */
  lemma BeforeRtIff(id: string, px: Prefixes)
    ensures RouteOf(Before, id, px) == ToBeforeRt <==> HasPrefix(id, Lower(px.rt))
    ensures RouteOf(After, id, px) == ToAfterRt <==> HasPrefix(id, Lower(px.rt))
  {
  }

  /** A typed slot is filled exactly for an id that lacks the realtime
      prefix, has the API prefix, and whose remainder is a known short id;
      the id is then the prefix followed by that short id. */
  lemma {:induction false} TypedSlotIff(mode: ExecutionMode, id: string, px: Prefixes, short: string)
    ensures RouteOf(mode, id, px) == ToBeforeReq(short) <==>
      mode == Before && !HasPrefix(id, Lower(px.rt)) && HasPrefix(id, Lower(px.api))
      && short == TrimPrefix(id, Lower(px.api)) && short in KnownShortIds
    ensures RouteOf(mode, id, px) == ToAfterReq(short) <==>
      mode == After && !HasPrefix(id, Lower(px.rt)) && HasPrefix(id, Lower(px.api))
      && short == TrimPrefix(id, Lower(px.api)) && short in KnownShortIds
    ensures RouteOf(mode, id, px) in {ToBeforeReq(short), ToAfterReq(short)} ==> Lower(px.api) + short == id
  {
    var api := Lower(px.api);
    if RouteOf(mode, id, px) in {ToBeforeReq(short), ToAfterReq(short)} {
      assert HasPrefix(id, api) && short == TrimPrefix(id, api);
    }
  }

  /** An announcement is dropped exactly when its mode has no table, or it
      is a Before/After id with neither prefix, or with the API prefix and
      an unknown short id. */
  lemma DroppedIff(mode: ExecutionMode, id: string, px: Prefixes)
    ensures RouteOf(mode, id, px) == Dropped <==>
      (!(mode == RPC || mode == Before || mode == After))
      || ((mode == Before || mode == After) && !HasPrefix(id, Lower(px.rt))
          && (!HasPrefix(id, Lower(px.api)) || TrimPrefix(id, Lower(px.api)) !in KnownShortIds))
  {
  }

  /** Announcing the same (mode, id) twice is the same as once: filing
      along any route is idempotent. */
  lemma AnnounceIdempotent(t: Tables, r: Route, id: string)
    ensures ApplyRoute(ApplyRoute(t, r, id), r, id) == ApplyRoute(t, r, id)
  {
    match r
    case ToRpc => assert t.rpc[id := id][id := id] == t.rpc[id := id];
    case ToBeforeRt => assert t.beforeRt[id := id][id := id] == t.beforeRt[id := id];
    case ToAfterRt => assert t.afterRt[id := id][id := id] == t.afterRt[id := id];
    case ToBeforeReq(short) => assert t.beforeReq[short := id][short := id] == t.beforeReq[short := id];
    case ToAfterReq(short) => assert t.afterReq[short := id][short := id] == t.afterReq[short := id];
    case Dropped =>
  }

  /** Only RPC mode reaches the RPC table, and only that table changes
      under it. */
  lemma RpcRouteIff(mode: ExecutionMode, id: string, px: Prefixes)
    ensures RouteOf(mode, id, px) == ToRpc <==> mode == RPC
  {
  }

  lemma RpcTableStep(t: Tables, r: Route, id: string)
    ensures ApplyRoute(t, r, id).rpc == if r == ToRpc then t.rpc[id := id] else t.rpc
  {
  }

  /** Filing keeps the typed slots within the known short ids. */
  lemma ApplyKeepsSlotsKnown(t: Tables, mode: ExecutionMode, id: string, px: Prefixes)
    requires SlotsKnown(t)
    ensures SlotsKnown(ApplyRoute(t, RouteOf(mode, id, px), id))
  {
  }

  /** After any sequence of announcements an RPC id is registered exactly
      when it was before or was announced in RPC mode, and typed slots stay
      within the known short ids. */
  lemma {:induction false} AnnounceAllRpc(t: Tables, px: Prefixes, anns: seq<Announcement>, id: string)
    ensures id in AnnounceAll(t, px, anns).rpc <==>
      id in t.rpc || exists i :: 0 <= i < |anns| && anns[i] == Announcement(RPC, id)
    decreases |anns|
  {
    if anns != [] {
      var prefix := anns[..|anns| - 1];
      var a := anns[|anns| - 1];
      AnnounceAllRpc(t, px, prefix, id);
      RpcRouteIff(a.mode, a.id, px);
      RpcTableStep(AnnounceAll(t, px, prefix), RouteOf(a.mode, a.id, px), a.id);
      if exists i :: 0 <= i < |anns| && anns[i] == Announcement(RPC, id) {
        var i :| 0 <= i < |anns| && anns[i] == Announcement(RPC, id);
        if i < |prefix| { assert prefix[i] == anns[i]; }
      }
      if exists i :: 0 <= i < |prefix| && prefix[i] == Announcement(RPC, id) {
        var i :| 0 <= i < |prefix| && prefix[i] == Announcement(RPC, id);
        assert anns[i] == prefix[i];
      }
    }
  }

  lemma {:induction false} AnnounceAllSlotsKnown(t: Tables, px: Prefixes, anns: seq<Announcement>)
    requires SlotsKnown(t)
    ensures SlotsKnown(AnnounceAll(t, px, anns))
    decreases |anns|
  {
    if anns != [] {
      var a := anns[|anns| - 1];
      AnnounceAllSlotsKnown(t, px, anns[..|anns| - 1]);
      ApplyKeepsSlotsKnown(AnnounceAll(t, px, anns[..|anns| - 1]), a.mode, a.id, px);
    }
  }
}
