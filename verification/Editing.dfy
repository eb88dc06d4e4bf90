/**
 The user's own edits: saving and deleting records, and replacing the web links of a tunnel.
 New identifiers come from the caller and are assumed fresh; whether a tunnel is active and
 whether a key file is accepted are parameters.
 */
module Editing {
  import opened Wrappers
  import opened Text
  import opened Records
  import opened Model
  import opened Store

  function OffTunnel(tunnelId: string): Service -> bool { (v: Service) => v.tunnelId != tunnelId }
  function OfTunnel(tunnelId: string): Service -> bool { (v: Service) => v.tunnelId == tunnelId }

  /** One submitted link: an existing one keeps its environment and description, a new one gets an
      identifier and its host's environment. */
  function Completed(own: seq<Service>, host: Host, tunnel: Tunnel, link: Service, newId: string): Option<Service> {
    if link.id == "" then
      Some(link.(id := newId, environment := host.environment, tunnelId := tunnel.id))
    else
      match FindLast(own, ServiceId, link.id)
      case None => None
      case Some(v) => Some(link.(environment := v.environment, description := v.description, tunnelId := tunnel.id))
  }

  /** The links of a tunnel after replacing them; `newIds[j]` is the identifier a new j-th link gets. */
  function Linked(own: seq<Service>, host: Host, tunnel: Tunnel, links: seq<Service>, newIds: seq<string>): (r: Result<seq<Service>>)
    requires |links| <= |newIds|
  {
    if links == [] then Ok([])
    else
      var n := |links| - 1;
      match Linked(own, host, tunnel, links[..n], newIds)
      case Err => Err
      case Ok(done) =>
        match Completed(own, host, tunnel, links[n], newIds[n])
        case None => Err
        case Some(v) =>
          if (links[n].id != "" && Has(done, ServiceId, v.id)) || !ValidService(v, tunnel) then Err else Ok(done + [v])
  }

  function ReplaceLinks(s: State, tunnel: Tunnel, links: seq<Service>, newIds: seq<string>): Result<State>
    requires |links| <= |newIds|
  {
    match Find(s.hosts, HostId, tunnel.hostId)
    case None => Err
    case Some(host) =>
      match Linked(Filter(s.services, OfTunnel(tunnel.id)), host, tunnel, links, newIds)
      case Err => Err
      case Ok(own) => Ok(s.(services := Filter(s.services, OffTunnel(tunnel.id)) + own))
  }

  lemma LinkedFails(own: seq<Service>, host: Host, tunnel: Tunnel, links: seq<Service>, newIds: seq<string>, n: nat)
    requires n <= |links| <= |newIds| && Linked(own, host, tunnel, links[..n], newIds).Err?
    ensures Linked(own, host, tunnel, links, newIds).Err?
    decreases |links| - n
  {
    if n < |links| {
      assert links[..n + 1][..n] == links[..n];
      LinkedFails(own, host, tunnel, links, newIds, n + 1);
    } else {
      assert links[..n] == links;
    }
  }

  method SplitLinks(services: seq<Service>, tunnelId: string)
    returns (own: seq<Service>, existing: map<string, Service>, others: seq<Service>)
    ensures own == Filter(services, OfTunnel(tunnelId)) && others == Filter(services, OffTunnel(tunnelId))
    ensures existing == ById(own, ServiceId)
  {
    own, existing, others := [], map[], [];
    for i := 0 to |services|
      invariant own == Filter(services[..i], OfTunnel(tunnelId)) && others == Filter(services[..i], OffTunnel(tunnelId))
      invariant existing == ById(own, ServiceId)
    {
      var link := services[i];
      assert services[..i + 1][..i] == services[..i];
      if link.tunnelId == tunnelId {
        assert (own + [link])[..|own|] == own;
        own, existing := own + [link], existing[link.id := link];
      } else {
        others := others + [link];
      }
    }
    assert services[..|services|] == services;
  }

  /** The loop over the submitted links. */
  method CompleteLinks(own: seq<Service>, existing: map<string, Service>, host: Host, tunnel: Tunnel,
                       links: seq<Service>, newIds: seq<string>) returns (r: Result<seq<Service>>)
    requires |links| <= |newIds| && existing == ById(own, ServiceId)
    ensures r == Linked(own, host, tunnel, links, newIds)
  {
    hide IndexOf, ValidService, FindLast, Has;
    var done: seq<Service> := [];
    for i := 0 to |links|
      invariant Linked(own, host, tunnel, links[..i], newIds) == Ok(done)
    {
      assert links[..i + 1][..i] == links[..i];
      var link := links[i];
      if link.id != "" {
        if link.id !in existing || Has(done, ServiceId, link.id) {
          LinkedFails(own, host, tunnel, links, newIds, i + 1);
          return Err;
        }
        var v := existing[link.id];
        link := link.(environment := v.environment, description := v.description);
      } else {
        link := link.(id := newIds[i], environment := host.environment);
      }
      link := link.(tunnelId := tunnel.id);
      if !ValidService(link, tunnel) {
        LinkedFails(own, host, tunnel, links, newIds, i + 1);
        return Err;
      }
      done := done + [link];
    }
    assert links[..|links|] == links;
    r := Ok(done);
  }

  method ReplaceTunnelLinks(draft: Draft, tunnel: Tunnel, links: seq<Service>, newIds: seq<string>) returns (ok: bool)
    requires |links| <= |newIds|
    modifies draft
    ensures ok <==> ReplaceLinks(old(draft.View()), tunnel, links, newIds).Ok?
    ensures ok ==> ReplaceLinks(old(draft.View()), tunnel, links, newIds) == Ok(draft.View())
  {
    hide IndexOf, Linked, Filter;
    var own, existing, others := SplitLinks(draft.services, tunnel.id);
    var host := Find(draft.hosts, HostId, tunnel.hostId);
    if host.None? {
      return false;
    }
    var done := CompleteLinks(own, existing, host.value, tunnel, links, newIds);
    if done.Err? {
      return false;
    }
    draft.services := others + done.value;
    ok := true;
  }

  // ---------------------------------------------------------------- saving and deleting

  datatype Edit =
    | SaveHost(host: Host)
    | SaveKey(key: Key, path: Option<string>)                          // the accepted path of the key file
    | SaveTunnel(tunnel: Tunnel, links: Option<seq<Service>>, active: bool)
    | SaveService(service: Service, newTunnel: Option<Tunnel>)
    | SaveSettings(settings: Option<Settings>)                         // None when a path is refused
    | DeleteHost(id: string)
    | DeleteKey(id: string)
    | DeleteTunnel(id: string, active: bool)
    | DeleteService(id: string)

  /** How many new identifiers an edit may use. */
  function Needs(e: Edit): nat {
    match e
    case SaveTunnel(_, Some(links), _) => 2 + |links|
    case _ => 2
  }

  function Named(id: string, newId: string): string { if id == "" then newId else id }

  function SavedTunnel(s: State, t: Tunnel, links: Option<seq<Service>>, newIds: seq<string>): Result<State>
    requires |newIds| >= 2 && (links.Some? ==> |newIds| >= 2 + |links.value|)
  {
    var v := t.(id := Named(t.id, newIds[0]));
    var tunnels :- Replaced(s.tunnels, t.id, v, TunnelId);
    var saved := s.(tunnels := tunnels);
    if links.None? then Ok(saved) else ReplaceLinks(saved, v, links.value, newIds[2..])
  }

  function SavedService(s: State, v: Service, newTunnel: Option<Tunnel>, newIds: seq<string>): Result<State>
    requires |newIds| >= 2
  {
    if newTunnel.Some? && v.tunnelId != "" then Err
    else
      var saved := match newTunnel
        case None => s
        case Some(t) => s.(tunnels := s.tunnels + [t.(id := newIds[0], name := v.name + " tunnel", localHost := "127.0.0.1")]);
      var w := v.(id := Named(v.id, newIds[1]), tunnelId := if newTunnel.Some? then newIds[0] else v.tunnelId);
      var services :- Replaced(saved.services, v.id, w, ServiceId);
      Ok(saved.(services := services))
  }

  function Edited(s: State, e: Edit, newIds: seq<string>): Result<State>
    requires |newIds| >= Needs(e)
  {
    match e
    case SaveHost(h) =>
      var hosts :- Replaced(s.hosts, h.id, h.(id := Named(h.id, newIds[0])), HostId);
      Ok(s.(hosts := hosts))
    case SaveKey(k, path) =>
      if path.None? then Err
      else
        var keys :- Replaced(s.keys, k.id, k.(id := Named(k.id, newIds[0]), path := path.value), KeyId);
        Ok(s.(keys := keys))
    case SaveTunnel(t, links, active) => if active then Err else SavedTunnel(s, t, links, newIds)
    case SaveService(v, newTunnel) => SavedService(s, v, newTunnel, newIds)
    case SaveSettings(settings) => if settings.None? then Err else Ok(s.(settings := settings.value))
    case DeleteHost(id) =>
      var hosts :- Deleted(s.hosts, id, HostId);
      Ok(s.(hosts := hosts))
    case DeleteKey(id) =>
      var keys :- Deleted(s.keys, id, KeyId);
      Ok(s.(keys := keys))
    case DeleteTunnel(id, active) =>
      if active then Err
      else
        var tunnels :- Deleted(s.tunnels, id, TunnelId);
        Ok(s.(tunnels := tunnels, services := Filter(s.services, OffTunnel(id))))
    case DeleteService(id) =>
      var services :- Deleted(s.services, id, ServiceId);
      Ok(s.(services := services))
  }

  /** The edit as the server makes it on the working copy. */
  method MakeEdit(draft: Draft, e: Edit, newIds: seq<string>) returns (ok: bool)
    requires |newIds| >= Needs(e)
    modifies draft
    ensures ok <==> Edited(old(draft.View()), e, newIds).Ok?
    ensures ok ==> Edited(old(draft.View()), e, newIds) == Ok(draft.View())
  {
    hide Replaced, Deleted, Linked, Filter, ReplaceLinks;
    ok := true;
    match e {
      case SaveHost(h) =>
        var hosts := Replace(draft.hosts, h.id, h.(id := Named(h.id, newIds[0])), HostId);
        if hosts.Err? { return false; }
        draft.hosts := hosts.value;
      case SaveKey(k, path) =>
        if path.None? { return false; }
        var keys := Replace(draft.keys, k.id, k.(id := Named(k.id, newIds[0]), path := path.value), KeyId);
        if keys.Err? { return false; }
        draft.keys := keys.value;
      case SaveTunnel(t, links, active) =>
        if active { return false; }
        var v := t.(id := Named(t.id, newIds[0]));
        var tunnels := Replace(draft.tunnels, t.id, v, TunnelId);
        if tunnels.Err? { return false; }
        draft.tunnels := tunnels.value;
        if links.Some? {
          ok := ReplaceTunnelLinks(draft, v, links.value, newIds[2..]);
        }
      case SaveService(service, newTunnel) =>
        var v := service;
        if newTunnel.Some? {
          if v.tunnelId != "" { return false; }
          draft.tunnels := draft.tunnels + [newTunnel.value.(id := newIds[0], name := v.name + " tunnel", localHost := "127.0.0.1")];
          v := v.(tunnelId := newIds[0]);
        }
        var services := Replace(draft.services, service.id, v.(id := Named(v.id, newIds[1])), ServiceId);
        if services.Err? { return false; }
        draft.services := services.value;
      case SaveSettings(settings) =>
        if settings.None? { return false; }
        draft.settings := settings.value;
      case DeleteHost(id) =>
        var hosts := Delete(draft.hosts, id, HostId);
        if hosts.Err? { return false; }
        draft.hosts := hosts.value;
      case DeleteKey(id) =>
        var keys := Delete(draft.keys, id, KeyId);
        if keys.Err? { return false; }
        draft.keys := keys.value;
      case DeleteTunnel(id, active) =>
        if active { return false; }
        var tunnels := Delete(draft.tunnels, id, TunnelId);
        if tunnels.Err? { return false; }
        draft.tunnels := tunnels.value;
        var own, existing, others := SplitLinks(draft.services, id);
        draft.services := others;
      case DeleteService(id) =>
        var services := Delete(draft.services, id, ServiceId);
        if services.Err? { return false; }
        draft.services := services.value;
    }
  }
}
