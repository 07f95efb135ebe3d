/** The client list hook of `src/hooks/use-clients.ts`: its query keys and the
    client-side status filter. The clients come from the fixture store. */
module ClientHooks {
  import opened Wrappers
  import opened Json
  import opened Domain
  import opened QueryCache
  import Seqs = Lists

  /** `clientKeys.all`. */
  function All(): Key {
    [S("clients")]
  }

  /** `clientKeys.lists()`. */
  function Lists(): (key: Key)
    ensures All() < key
  {
    All() + [S("list")]
  }

  /** `clientKeys.list(filters)`. */
  function List(filters: map<string, string>): (key: Key)
    ensures Lists() < key && |key| == 3 && key[2] == Filters(filters)
  {
    Lists() + [Filters(filters)]
  }

  /** The key `useClients(filters)` caches under: `clientKeys.list(filters || {})`, where
      an undefined status is not part of the filters object. */
  function ListKey(filters: Option<Option<string>>): (key: Key)
    ensures Matches(Lists(), key)
    ensures filters.None? || filters.value.None? ==> key == List(map[])
    ensures filters.Some? && filters.value.Some? ==> key == List(map["status" := filters.value.value])
  {
    if filters.Some? && filters.value.Some? then List(map["status" := filters.value.value]) else List(map[])
  }

  /** The list `useClients` returns from the fetched clients. */
  function UseClients(status: Option<string>, data: seq<Client>): seq<Client> {
    Seqs.FilterIf(data, Filled(status), (c: Client) => c.status == status.GetOr(""))
  }

  /** The filtered list keeps the fetched order, holds exactly the clients with the
      status when one is given, and is the whole list otherwise. */
  lemma UseClientsSpec(status: Option<string>, data: seq<Client>)
    ensures Seqs.IsSubsequence(UseClients(status, data), data)
    ensures forall c :: c in UseClients(status, data) <==> c in data && (!Filled(status) || c.status == status.value)
    ensures !Filled(status) ==> UseClients(status, data) == data
  {
    var keep := (c: Client) => !Filled(status) || c.status == status.value;
    if Filled(status) {
      Seqs.FilterExt(data, (c: Client) => c.status == status.GetOr(""), keep);
    } else {
      Seqs.FilterAll(data, keep);
    }
    Seqs.FilterSpec(data, keep);
  }
}
