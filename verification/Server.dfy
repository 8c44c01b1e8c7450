/** The server's map of sessions: how a hello makes a session or finds one. */
module Server {
  import opened Wire
  import opened Transport
  import opened ServerSession
  import opened Stream
  import M = ServerModel
  import A = Answers

  class WsServer {
    const registry: Registry<ServerSession>

    constructor ()
      ensures fresh(registry) && registry.entries == map[] && Valid()
    {
      registry := new Registry();
    }

    /** Every session in the map is filed under its own identifier, belongs to this
        server and has its own target. */
    ghost predicate Valid()
      reads this, registry
    {
      var sessions := registry.entries;
      && (forall sid | sid in sessions :: sid != 0 && sessions[sid].id == sid && sessions[sid].registry == registry)
      && (forall a, b | a in sessions && b in sessions && a != b :: sessions[a].target != sessions[b].target)
    }

    /** `accept` on a first hello: dial, then a new session at epoch 1. When there
        is no identifier for it, the target is closed again; when the accept frame
        cannot be sent, the session is closed and out of the map again. */
    method AcceptNew(conn: Conn, newSid: Sid, dialOk: bool, idOk: bool, target: Writer)
      returns (session: ServerSession?, link: Link?, ok: bool, closeOk: bool)
      requires Valid() && newSid != 0 && newSid !in registry.entries
      requires target.contents == [] && target.closes == 0 && target.shut == 0
      requires forall sid | sid in registry.entries :: registry.entries[sid].target != target
      modifies registry, target`shut
      ensures Valid() && (session != null <==> dialOk && idOk) && (link != null <==> dialOk && idOk)
      ensures session == null ==> target.shut == if dialOk then 1 else 0
      ensures ok ==> session != null && registry.entries == old(registry.entries)[newSid := session]
      ensures !ok ==> registry.entries == old(registry.entries)
      ensures session != null ==>
                && fresh(session) && session.id == newSid && session.target == target && session.registry == registry
                && fresh(link) && link.conn == conn && link.session == newSid && link.epoch == 1
                && var o := M.CloseTerminal(M.Fresh1(conn), newSid, closeOk);
                   if ok then
                     session.State() == M.Fresh1(conn) && link.sent == [Frame.Accept(newSid, 1, 0, 0)]
                         && link.failures == 0
                     && target.shut == 0 && !link.shut
                   else
                     session.State() == o.session && link.sent == o.sent && link.failures == 1 + Failed(closeOk)
                         && target.shut == 1 && link.shut
    {
      session, link, ok, closeOk := null, null, false, false;
      if dialOk && !idOk {
        target.Shut();
      } else if dialOk {
        session, link, ok, closeOk := Begin(conn, newSid, target);
        assert old(registry.entries)[newSid := session] - {newSid} == old(registry.entries);
      }
    }

    /** A new session and its accept, once there is a target and an identifier. */
    method Begin(conn: Conn, newSid: Sid, target: Writer)
      returns (session: ServerSession, link: Link, ok: bool, closeOk: bool)
      requires newSid !in registry.entries && target.contents == [] && target.closes == 0 && target.shut == 0
      modifies registry, target`shut
      ensures registry.entries == old(registry.entries)[newSid := session] - if ok then {} else {newSid}
      ensures fresh(session) && session.id == newSid && session.target == target && session.registry == registry
      ensures fresh(link) && link.conn == conn && link.session == newSid && link.epoch == 1
      ensures target.shut == (if ok then 0 else 1) && link.shut == !ok
      ensures var o := M.CloseTerminal(M.Fresh1(conn), newSid, closeOk);
              if ok then
                session.State() == M.Fresh1(conn) && link.sent == [Frame.Accept(newSid, 1, 0, 0)] && link.failures == 0
              else
                session.State() == o.session && link.sent == o.sent && link.failures == 1 + Failed(closeOk)
    {
      closeOk := false;
      session := new ServerSession(newSid, target, conn, registry);
      link := new Link(conn, newSid, 1);
      registry.Insert(newSid, session);
      ok := link.Send(Frame.Accept(newSid, 1, 0, 0));
      if !ok {
        closeOk := session.CloseTerminal(link);
      }
    }

    /** `accept` on a resume hello: an empty or unknown session is refused, a known
        one is resumed; if it turns out to have expired it leaves the map. */
    method AcceptResume(conn: Conn, hello: Frame, expired: bool, previous: Link)
      returns (session: ServerSession?, link: Link?, ok: bool, io: Io)
      requires Valid() && hello.Hello?
      requires hello.session in registry.entries && registry.entries[hello.session].active.Some? ==>
                 var s := registry.entries[hello.session];
                 previous.conn == s.active.value && previous.epoch == s.epoch && previous.session == s.id
      modifies if hello.session in registry.entries then
          {registry.entries[hello.session], registry.entries[hello.session].target} else {},
               previous`sent, previous`failures, previous`shut, registry
      ensures Valid() && (ok ==> session != null && link != null)
      ensures hello.session !in old(registry.entries) ==>
                session == null && link == null && registry.entries == old(registry.entries)
                    && previous.sent == old(previous.sent) && previous.shut == old(previous.shut)
      ensures hello.session in old(registry.entries) ==>
                && session == old(registry.entries)[hello.session] && session.Released()
                && session.HungUp(previous,
                                  link != null || (session.closed && !old(registry.entries[hello.session].closed)))
                && match M.Resume(old(registry.entries[hello.session].State()), session.id, conn, hello, expired, io)
                   case Refused => link == null && session.State() == old(registry.entries[hello.session].State())
                   case Expired(o) => link == null && session.State() == o.session
                   case Resumed(t, accept, replay) =>
                     && link != null && link.conn == conn && link.session == session.id && link.epoch == t.epoch
                     && session.State() == (if ok then t else M.Disconnect(t, conn))
                     && fresh(link) && (ok && link.failures == 0 ==> link.sent == [accept] + replay)
                     && (!ok ==> link.failures == 1 && link.sent < [accept] + replay)
    {
      session, link, ok, io := null, null, false, FINE;
      if hello.session != 0 && hello.session in registry.entries {
        session := registry.entries[hello.session];
        link, ok, io := session.Resume(hello, expired, conn, previous);
      }
    }

    /** `accept`: a hello with the wrong version or without a name is refused before
        anything else; otherwise the session and the connection object that `run`
        goes on with, or nothing. */
    method Accept(version: int, name: string, conn: Conn, hello: Frame, newSid: Sid, dialOk: bool,
                  idOk: bool, target: Writer, expired: bool, previous: Link)
      returns (session: ServerSession?, link: Link?)
      requires Valid() && hello.Hello? && newSid != 0 && newSid !in registry.entries
      requires target.contents == [] && target.closes == 0 && target.shut == 0
      requires forall sid | sid in registry.entries :: registry.entries[sid].target != target
      requires hello.session in registry.entries && registry.entries[hello.session].active.Some? ==>
                 var s := registry.entries[hello.session];
                 previous.conn == s.active.value && previous.epoch == s.epoch && previous.session == s.id
      modifies if hello.session in registry.entries then
          {registry.entries[hello.session], registry.entries[hello.session].target} else {},
               previous`sent, previous`failures, previous`shut, registry, target`shut
      ensures Valid()
      ensures version != 1 || name == "" ==>
                session == null && registry.entries == old(registry.entries)
                && previous.sent == old(previous.sent) && target.shut == 0
                && (hello.session in old(registry.entries) ==>
                      old(registry.entries)[hello.session].State() == old(registry.entries[hello.session].State()))
      ensures session != null ==>
                && version == 1 && name != "" && link != null
                && session.id in registry.entries && registry.entries[session.id] == session
                && session.id == (if hello.resume then hello.session else newSid)
                && session.Reading(link) && link.conn == conn && !session.closed
      ensures version == 1 && name != "" && !hello.resume ==>
                && (session == null ==> registry.entries == old(registry.entries) && (dialOk ==> target.shut == 1))
                && (dialOk && idOk <==> link != null) && (session != null ==> fresh(session) && session.epoch == 1)
                && (session == null && link != null ==> link.failures > 0)
      ensures version == 1 && name != "" && hello.resume && hello.session !in old(registry.entries) ==>
                session == null && link == null && registry.entries == old(registry.entries)
      ensures version == 1 && name != "" && hello.resume && hello.session in old(registry.entries) ==>
                var s, was := old(registry.entries)[hello.session], old(registry.entries[hello.session].State());
                var ends := !was.closed && was.disconnected && expired;
                var fits := !was.closed && !ends && hello.c2sRx <= was.rx && hello.s2cRx <= |was.targetRead|;
                Tracks(was.snd, was.targetRead) ==>
                  && (s.closed <==> was.closed || ends)
                  && s.target.shut == old(registry.entries[hello.session].target.shut) + (if ends then 1 else 0)
                  && registry.entries == old(registry.entries) - (if ends then {hello.session} else {})
                  && (link != null <==> fits) && (session != null ==> session == s)
                  && (fits ==> link.conn == conn && link.epoch == s.epoch == was.epoch + 1
                               && (session == null ==> link.failures > 0 && s.active.None?)
                               && (session != null ==> s.active == Some(conn)))
                  && (!ends && !fits ==> s.State() == was && previous.shut == old(previous.shut))
    {
      session, link := null, null;
      if version != 1 || name == "" {
        return;
      }
      var ok;
      if !hello.resume {
        var closeOk;
        session, link, ok, closeOk := AcceptNew(conn, newSid, dialOk, idOk, target);
      } else {
        var io;
        session, link, ok, io := AcceptResume(conn, hello, expired, previous);
        ghost var was := if session == null then M.Fresh1(conn) else old(registry.entries[hello.session].State());
        if session != null && Tracks(was.snd, was.targetRead) {
          A.ServerResumes(was, hello.session, conn, hello, expired, io);
        }
      }
      if !ok {
        session := null;
      }
    }
  }
}
