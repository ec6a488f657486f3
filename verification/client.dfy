/** The part of the Docker client (internal/docker/interface.go) the dashboard
    drives statefully: opening a stats or a logs stream hands back a cancel
    function. A stream is named here by a handle, the number of streams the
    client had opened before it, and the client keeps a ghost record of every
    stream opened and every handle cancelled. The stream contents themselves
    arrive as messages to the dashboard. */
module DockerClient {

  type Handle = nat

  datatype StreamKind = StatsStream | LogsStream

  /** What was opened: which kind of stream, for which container ID. */
  datatype Stream = Stream(kind: StreamKind, target: string)

  /** A snapshot of the client's record: the streams in opening order (the
      handle of a stream is its index) and the handles cancelled so far. */
  datatype ClientView = ClientView(streams: seq<Stream>, cancelled: set<Handle>)

  class Client {
    var issued: nat
    ghost var streams: seq<Stream>
    ghost var cancelled: set<Handle>

    ghost predicate Valid()
      reads this
    {
      issued == |streams| && forall h | h in cancelled :: h < issued
    }

    ghost function View(): ClientView
      reads this
    {
      ClientView(streams, cancelled)
    }

    constructor ()
      ensures Valid() && issued == 0 && streams == [] && cancelled == {}
    {
      issued := 0;
      streams := [];
      cancelled := {};
    }

    /** StreamContainerStats: a fresh handle for a new stats stream of id. */
    method StreamContainerStats(id: string) returns (h: Handle)
      requires Valid()
      modifies this`issued, this`streams
      ensures Valid()
      ensures h == old(issued) && issued == old(issued) + 1
      ensures streams == old(streams) + [Stream(StatsStream, id)]
      ensures cancelled == old(cancelled)
    {
      h := issued;
      issued := issued + 1;
      streams := streams + [Stream(StatsStream, id)];
    }

    /** StreamContainerLogs: a fresh handle for a new logs stream of id. */
    method StreamContainerLogs(id: string) returns (h: Handle)
      requires Valid()
      modifies this`issued, this`streams
      ensures Valid()
      ensures h == old(issued) && issued == old(issued) + 1
      ensures streams == old(streams) + [Stream(LogsStream, id)]
      ensures cancelled == old(cancelled)
    {
      h := issued;
      issued := issued + 1;
      streams := streams + [Stream(LogsStream, id)];
    }

    /** Calling a stream's cancel function; calling it again is harmless. */
    method Cancel(h: Handle)
      requires Valid() && h < issued
      modifies this`cancelled
      ensures Valid()
      ensures cancelled == old(cancelled) + {h}
    {
      cancelled := cancelled + {h};
    }
  }
}
