/**
  The slice of the Hetzner Cloud API client that the manager uses, as an
  abstract gateway. What the remote side answers is not computed here: an `Api`
  value holds the answers it gives to each request, and a `Client` records, in
  ghost logs, every request the manager issues through it.
*/
module HCloud {
  import opened Wrappers

  /** A remote server as the API reports it. */
  datatype Server = Server(id: int, name: string, labels: map<string, string>)

  /** A failure reported by the API or its transport (the code and message of an hcloud error). */
  datatype ApiError = ApiError(code: string, message: string)

  /** Listing options: page number, page size and label selector. */
  datatype ListOpts = ListOpts(page: int, perPage: int, labelSelector: string)

  /**
    The remote side's answers: to `Server.Get` by id or name (Ok(None) when no
    such server exists), to `Server.Delete`, and to `Server.AllWithOpts`.
  */
  datatype Api = Api(
    get: string -> Result<Option<Server>, ApiError>,
    delete: Server -> Option<ApiError>,
    list: ListOpts -> Result<seq<Server>, ApiError>)

  class Client {
    const token: string
    const api: Api
    ghost var gets: seq<string>
    ghost var deletes: seq<Server>
    ghost var lists: seq<ListOpts>

    /** `hcloud.NewClient(hcloud.WithToken(token))`: no request has been issued yet. */
    constructor (token: string, api: Api)
      ensures this.token == token && this.api == api
      ensures gets == [] && deletes == [] && lists == []
    {
      this.token := token;
      this.api := api;
      gets, deletes, lists := [], [], [];
    }

    /** Whether any request at all has been issued. */
    ghost predicate Idle()
      reads this
    {
      gets == [] && deletes == [] && lists == []
    }

    /** `Server.Get(ctx, idOrName)`. */
    method Get(idOrName: string) returns (r: Result<Option<Server>, ApiError>)
      modifies this`gets
      ensures r == api.get(idOrName)
      ensures gets == old(gets) + [idOrName]
    {
      r := api.get(idOrName);
      gets := gets + [idOrName];
    }

    /** `Server.Delete(ctx, server)`: only the error is kept, as the manager discards the response. */
    method Delete(server: Server) returns (err: Option<ApiError>)
      modifies this`deletes
      ensures err == api.delete(server)
      ensures deletes == old(deletes) + [server]
    {
      err := api.delete(server);
      deletes := deletes + [server];
    }

    /** `Server.AllWithOpts(ctx, opts)`: every page of the listing, as one sequence. */
    method AllWithOpts(opts: ListOpts) returns (r: Result<seq<Server>, ApiError>)
      modifies this`lists
      ensures r == api.list(opts)
      ensures lists == old(lists) + [opts]
    {
      r := api.list(opts);
      lists := lists + [opts];
    }
  }
}
