/** Peers: the handles through which the server reaches a client or a
    neighbouring server (remoteConnection), and lookups over lists of them. */
module Peers {

  datatype Option<T> = None | Some(value: T)

  /** A UDP address. The model never looks inside it; it is only stored,
      compared and sent to. */
  datatype Endpoint = Endpoint(host: string, port: nat)

  /** A directly addressable peer: its name and the address it is reached at. */
  datatype RemoteConnection = RemoteConnection(identifier: string, endpoint: Endpoint)

  /** The position of the first connection named `id`, which is where a
      front-to-back scan of the list stops; None when no entry has that name. */
  function FirstIndexOf(cs: seq<RemoteConnection>, id: string): (r: Option<nat>)
    ensures r.Some? ==> r.value < |cs| && cs[r.value].identifier == id
    ensures r.Some? ==> forall j :: 0 <= j < r.value ==> cs[j].identifier != id
    ensures r.None? <==> forall j :: 0 <= j < |cs| ==> cs[j].identifier != id
    decreases |cs|
  {
    if cs == [] then None
    else if cs[0].identifier == id then Some(0)
    else
      match FirstIndexOf(cs[1..], id)
      case None => None
      case Some(k) => Some(k + 1)
  }

  /** The names of `cs`, in list order. */
  function Identifiers(cs: seq<RemoteConnection>): (ids: seq<string>)
    ensures |ids| == |cs|
    ensures forall i :: 0 <= i < |cs| ==> ids[i] == cs[i].identifier
    decreases |cs|
  {
    if cs == [] then [] else [cs[0].identifier] + Identifiers(cs[1..])
  }
}
