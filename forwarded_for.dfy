/** The middleware that puts the original client address of a proxied
    request into `REMOTE_ADDR`. */
module ForwardedFor {
  import Text
  import ConversionQueue

  const ForwardedForKey: string := ConversionQueue.ForwardedForKey
  const RemoteAddrKey: string := ConversionQueue.RemoteAddrKey

  /** The request as the middleware sees it: its `META` dictionary, updated
      in place. */
  class Request {
    var meta: map<string, string>

    constructor (meta: map<string, string>)
      ensures this.meta == meta
    {
      this.meta := meta;
    }
  }

  /** Whether the header is there and not empty. */
  predicate Forwarded(meta: map<string, string>) {
    ForwardedForKey in meta && meta[ForwardedForKey] != ""
  }

  /** What the middleware does to `META`. */
  function Rewrite(meta: map<string, string>): (r: map<string, string>)
    ensures !Forwarded(meta) ==> r == meta
    ensures Forwarded(meta) ==>
      && RemoteAddrKey in r && r[RemoteAddrKey] == Text.FirstListEntry(meta[ForwardedForKey])
      && r.Keys == meta.Keys + {RemoteAddrKey}
    ensures forall k :: k in meta && k != RemoteAddrKey ==> k in r && r[k] == meta[k]
  {
    if Forwarded(meta) then meta[RemoteAddrKey := Text.FirstListEntry(meta[ForwardedForKey])] else meta
  }

  /** The new address holds no comma and no surrounding whitespace. */
  lemma RewrittenAddressIsClean(meta: map<string, string>)
    requires Forwarded(meta)
    ensures var ip := Rewrite(meta)[RemoteAddrKey];
      ',' !in ip && (ip == "" || (!Text.IsSpace(ip[0]) && !Text.IsSpace(ip[|ip| - 1])))
  {
  }

  /** After the middleware the converter's own client-address lookup finds
      the same address as before, and when the header is set that address
      is the new `REMOTE_ADDR`. */
  lemma {:induction false} ClientIpAgrees(meta: map<string, string>)
    ensures ConversionQueue.ClientIp(Rewrite(meta)) == ConversionQueue.ClientIp(meta)
    ensures Forwarded(meta) ==> Rewrite(meta)[RemoteAddrKey] == ConversionQueue.ClientIp(meta)
  {
    if Forwarded(meta) {
      assert ForwardedForKey != RemoteAddrKey;
      assert Rewrite(meta)[ForwardedForKey] == meta[ForwardedForKey];
    }
  }

  /** `ForwardedForMiddleware`. The source keeps the next handler
      (`get_response`) as a field set by its constructor; here it is passed
      to each `Call` instead. The ghost `calls` records the requests the
      handler received, for the specification only. */
  class Middleware {
    ghost var calls: seq<map<string, string>>

    constructor ()
      ensures calls == []
    {
      calls := [];
    }

    /** `__call__`: rewrites `REMOTE_ADDR` in place, then hands the request
        to the next handler exactly once and returns its response. */
    method Call<R>(request: Request, getResponse: map<string, string> -> R) returns (response: R)
      modifies this, request
      ensures request.meta == Rewrite(old(request.meta))
      ensures calls == old(calls) + [request.meta]
      ensures response == getResponse(request.meta)
    {
      if ForwardedForKey in request.meta && request.meta[ForwardedForKey] != "" {
        var ip := Text.FirstListEntry(request.meta[ForwardedForKey]);
        request.meta := request.meta[RemoteAddrKey := ip];
      }
      calls := calls + [request.meta];
      response := getResponse(request.meta);
    }
  }
}
