/**
 * `WorkspaceService` (src/app/core/workspace/workspace.service.ts): which
 * tenant and project the user works in, as a three-state machine whose
 * guards throw on the wrong state, and the next free PMO key number.
 *
 * A thrown guard error is `Err`. `bcast.broadcast` is the `outbox`
 * sequence; a message from the broadcaster is handed to `OnMessage`. The
 * repositories' `getAll` streams are outside the model: a fetch is the
 * tenant and `path` parameter it asks for, and `getNextPmoKey` takes the PMOs
 * that stream delivers. `Number.parseFloat` is the parameter `parseFloat`
 * (`None` for `NaN`).
 */
module Workspace {
  import opened Wrappers
  import opened Strings
  import opened PmoModels

  datatype WorkspaceState = NotReady | Ready | ProjectSelected

  /** What the workspace broadcasts: its new status, or an API authentication failure. */
  datatype Broadcast = StatusChanged(status: WorkspaceState) | ApiAuthFail

  /** What the workspace listens for: a project change (its `project` may be missing) or anything else. */
  datatype Incoming = ChangeProject(project: Option<Project>) | OtherMessage

  /** The collections the workspace fetches. */
  datatype Collection = Items | Projects | Pmos | Layouts | Domains | People

  const GUARD_ERROR: string := "Workspace Service Guard protection"

  /** PMOs and layouts live in a project; the others only need a tenant. */
  predicate NeedsProject(c: Collection) {
    c == Pmos || c == Layouts
  }

  /** Whether a fetch of `c` passes its guard: `guardProjectOperationOk` or `isReady`. */
  function Permits(status: WorkspaceState, c: Collection): (b: bool)
    ensures b ==> status != NotReady
    ensures status == ProjectSelected ==> b
    ensures status == Ready ==> (b <==> !NeedsProject(c))
  {
    if NeedsProject(c) then status.ProjectSelected? else status.Ready? || status.ProjectSelected?
  }

  /** The `path` a fetch asks for: the project's location for items, PMOs and layouts, `/` for the rest. */
  function QueryPath(c: Collection, project: Option<Project>): (p: Option<string>)
    ensures c in {Projects, Domains, People} ==> p == Some("/")
    ensures c in {Items, Pmos, Layouts} && project.Some? ==> p == Some(project.value.location)
    ensures c in {Items, Pmos, Layouts} && project.None? ==> p.None?
  {
    if c == Items || c == Pmos || c == Layouts then
      (if project.Some? then Some(project.value.location) else None)
    else Some("/")
  }

  /** The first resource path of the given type. */
  function FindPath(paths: seq<ResourcePath>, resourceType: string): (r: Option<string>)
    ensures r.Some? ==> exists i :: 0 <= i < |paths| && paths[i].resourceType == resourceType && paths[i].path == r.value
    ensures r.None? ==> forall i :: 0 <= i < |paths| ==> paths[i].resourceType != resourceType
  {
    if paths == [] then None
    else if paths[0].resourceType == resourceType then Some(paths[0].path)
    else
      var r := FindPath(paths[1..], resourceType);
      assert r.Some? ==> exists i :: 0 <= i < |paths| && paths[i].resourceType == resourceType && paths[i].path == r.value by {
        if r.Some? {
          var i :| 0 <= i < |paths[1..]| && paths[1..][i].resourceType == resourceType && paths[1..][i].path == r.value;
          assert paths[i + 1] == paths[1..][i];
        }
      }
      r
  }

  /**
   * `getProjectResourcePath(type)` as written: `location || ('' + path)`,
   * since `+` binds tighter than `||`. A project with a location answers
   * its location whatever the type asked for; otherwise the text of the
   * matching path, `"undefined"` when there is none.
   */
  function ProjectResourcePath(project: Option<Project>, resourceType: string): (r: string)
    ensures project.Some? && project.value.location != "" ==> r == project.value.location
    ensures project.None? ==> r == "undefined"
    ensures project.Some? && project.value.location == "" ==>
      r == FindPath(project.value.resourcePaths, resourceType).GetOr("undefined")
  {
    if project.Some? && project.value.location != "" then project.value.location
    else if project.None? then "undefined"
    else FindPath(project.value.resourcePaths, resourceType).GetOr("undefined")
  }

  /** The number in a PMO key: `parseFloat` of the text between its first and second `.`. */
  function KeyNumber(key: string, parseFloat: string -> Option<real>): (r: Option<real>)
    ensures '.' !in key ==> r.None?
  {
    var parts := SplitOn(key, '.');
    if |parts| < 2 then None
    else
      assert '.' in key by {
        SplitOnJoin(key, '.');
        assert key == parts[0] + ['.'] + Join(parts[1..], ['.']);
        assert key[|parts[0]|] == '.';
      }
      parseFloat(parts[1])
  }

  /** The number a PMO contributes to `getNextPmoKey(kind)`: its key's number, when it is of that kind. */
  function Numbered(p: Pmo, kind: Kind, parseFloat: string -> Option<real>): (r: Option<real>)
    ensures p.kind != kind ==> r.None?
  {
    if p.kind == kind then KeyNumber(p.key, parseFloat) else None
  }

  /** One step of the `forEach`: a number at least the current maximum replaces it. */
  function MaxStep(maxId: real, n: Option<real>): (r: real)
    ensures r >= maxId
    ensures n.Some? && n.value >= maxId ==> r == n.value
    ensures !(n.Some? && n.value >= maxId) ==> r == maxId
  {
    if n.Some? && n.value >= maxId then n.value else maxId
  }

  /** `max_id` after the PMOs `pmos`, in order, starting from 0. */
  function MaxPmoKey(pmos: seq<Pmo>, kind: Kind, parseFloat: string -> Option<real>): (m: real)
    ensures m >= 0.0
    decreases |pmos|
  {
    if pmos == [] then 0.0
    else MaxStep(MaxPmoKey(pmos[..|pmos| - 1], kind, parseFloat), Numbered(pmos[|pmos| - 1], kind, parseFloat))
  }

  /**
   * `getNextPmoKey` finds the largest key number among the PMOs of the kind:
   * never below 0, at least every such number, and either 0 or one of them.
   */
  lemma {:induction false} MaxPmoKeyIsMax(pmos: seq<Pmo>, kind: Kind, parseFloat: string -> Option<real>)
    ensures var m := MaxPmoKey(pmos, kind, parseFloat);
      && m >= 0.0
      && (forall i :: 0 <= i < |pmos| && Numbered(pmos[i], kind, parseFloat).Some? ==> Numbered(pmos[i], kind, parseFloat).value <= m)
      && (m == 0.0 || exists i :: 0 <= i < |pmos| && Numbered(pmos[i], kind, parseFloat) == Some(m))
    decreases |pmos|
  {
    if pmos != [] {
      var init := pmos[..|pmos| - 1];
      MaxPmoKeyIsMax(init, kind, parseFloat);
      var m0 := MaxPmoKey(init, kind, parseFloat);
      var m := MaxPmoKey(pmos, kind, parseFloat);
      forall i | 0 <= i < |pmos| && Numbered(pmos[i], kind, parseFloat).Some?
        ensures Numbered(pmos[i], kind, parseFloat).value <= m
      {
        if i < |pmos| - 1 {
          assert pmos[i] == init[i];
        }
      }
      if m != 0.0 && m != m0 {
        assert Numbered(pmos[|pmos| - 1], kind, parseFloat) == Some(m);
      } else if m != 0.0 {
        var i :| 0 <= i < |init| && Numbered(init[i], kind, parseFloat) == Some(m0);
        assert pmos[i] == init[i];
      }
    }
  }

  /** PMOs of other kinds play no part. */
  lemma {:induction false} MaxPmoKeyIgnoresOtherKinds(pmos: seq<Pmo>, p: Pmo, kind: Kind, parseFloat: string -> Option<real>)
    requires p.kind != kind
    ensures MaxPmoKey(pmos + [p], kind, parseFloat) == MaxPmoKey(pmos, kind, parseFloat)
  {
    assert (pmos + [p])[..|pmos + [p]| - 1] == pmos;
  }

  /** Status, tenant and project, as one value. */
  datatype Ws = Ws(status: WorkspaceState, tenantId: Option<string>, project: Option<Project>)

  /** A workspace that is ready has a tenant; one with a selected project has that project. */
  predicate ValidWs(w: Ws) {
    && (w.status != NotReady ==> w.tenantId.Some? && w.tenantId.value != "")
    && (w.status == ProjectSelected ==> w.project.Some? && w.project.value.id != "")
  }

  /** `init(tenant)`: an empty tenant leaves the workspace not ready (keeping the old tenant and project). */
  function InitStep(w: Ws, tenant: string): (p: (Ws, bool))
    ensures p.1 <==> tenant != ""
    ensures tenant == "" ==> p.0 == w.(status := NotReady)
    ensures tenant != "" ==> p.0 == w.(status := Ready, tenantId := Some(tenant))
    ensures ValidWs(w) ==> ValidWs(p.0)
  {
    if |tenant| == 0 then (w.(status := NotReady), false)
    else (w.(status := Ready, tenantId := Some(tenant)), true)
  }

  /** `selectProject(project)`: the guard, then an empty id is refused, else the project is selected. */
  function SelectStep(w: Ws, project: Project): (r: Result<(Ws, bool)>)
    ensures r.Err? <==> (w.status == NotReady)
    ensures r.Ok? && project.id == "" ==> r.value == (w, false)
    ensures r.Ok? && project.id != "" ==> r.value == (w.(status := ProjectSelected, project := Some(project)), true)
    ensures ValidWs(w) && r.Ok? ==> ValidWs(r.value.0)
  {
    if !(w.status.Ready? || w.status.ProjectSelected?) then Err(GUARD_ERROR)
    else if |project.id| == 0 then Ok((w, false))
    else Ok((w.(status := ProjectSelected, project := Some(project)), true))
  }

  /** `deInit()`. */
  function DeInitStep(w: Ws): (r: Ws)
    ensures r.status == NotReady && r.tenantId.None? && r.project.None?
    ensures ValidWs(r)
  {
    Ws(NotReady, None, None)
  }

  /** From any state, `deInit` then `init(t)` with a non-empty tenant gives a ready workspace for `t` with no project. */
  lemma ReInit(w: Ws, tenant: string)
    requires tenant != ""
    ensures InitStep(DeInitStep(w), tenant) == (Ws(Ready, Some(tenant), None), true)
  {
  }

  class WorkspaceService {
    var status: WorkspaceState
    var tenantId: Option<string>
    var project: Option<Project>
    var outbox: seq<Broadcast>

    function Abstract(): Ws
      reads this
    {
      Ws(status, tenantId, project)
    }

    ghost predicate Valid()
      reads this
    {
      ValidWs(Abstract())
    }

    constructor ()
      ensures Abstract() == Ws(NotReady, None, None) && outbox == []
      ensures Valid()
    {
      status := NotReady;
      tenantId := None;
      project := None;
      outbox := [];
    }

    /** `deInit()`: back to not ready, without tenant or project, and says so. */
    method DeInit()
      modifies this
      ensures Abstract() == DeInitStep(old(Abstract()))
      ensures outbox == old(outbox) + [StatusChanged(NotReady)]
      ensures Valid()
    {
      tenantId := None;
      project := None;
      status := NotReady;
      outbox := outbox + [StatusChanged(status)];
    }

    /** `init(tenant)`: the new status is broadcast in both cases. */
    method Init(tenant: string) returns (ok: bool)
      requires Valid()
      modifies this
      ensures (Abstract(), ok) == InitStep(old(Abstract()), tenant)
      ensures outbox == old(outbox) + [StatusChanged(status)]
      ensures Valid()
    {
      if |tenant| == 0 {
        status := NotReady;
      } else {
        tenantId := Some(tenant);
        status := Ready;
      }
      outbox := outbox + [StatusChanged(status)];
      ok := status == Ready;
    }

    /** `isReady()`: true when ready or with a project selected; throws otherwise. */
    method IsReady() returns (r: Result<bool>)
      ensures r.Ok? <==> status == Ready || status == ProjectSelected
      ensures r.Ok? ==> r.value
      ensures r.Err? ==> r.msg == GUARD_ERROR
    {
      if status.Ready? || status.ProjectSelected? {
        return Ok(true);
      }
      return Err(GUARD_ERROR);
    }

    /** `guardProjectOperationOk()`: true with a project selected; throws otherwise. */
    method GuardProjectOperationOk() returns (r: Result<bool>)
      ensures r.Ok? <==> status == ProjectSelected
      ensures r.Ok? ==> r.value
      ensures r.Err? ==> r.msg == GUARD_ERROR
    {
      if status == ProjectSelected {
        return Ok(true);
      }
      return Err(GUARD_ERROR);
    }

    /** `selectProject(project)`: an empty id returns false without a broadcast. */
    method SelectProject(p: Project) returns (r: Result<bool>)
      requires Valid()
      modifies this
      ensures var s := SelectStep(old(Abstract()), p);
        && (s.Err? ==> r == Err(GUARD_ERROR) && Abstract() == old(Abstract()))
        && (s.Ok? ==> r == Ok(s.value.1) && Abstract() == s.value.0)
      ensures r == Ok(true) ==> outbox == old(outbox) + [StatusChanged(ProjectSelected)]
      ensures r != Ok(true) ==> outbox == old(outbox)
      ensures Valid()
    {
      var ready := IsReady();
      if ready.Err? {
        return Err(ready.msg);
      }
      if |p.id| == 0 {
        return Ok(false);
      }
      project := Some(p);
      status := ProjectSelected;
      outbox := outbox + [StatusChanged(status)];
      return Ok(status == ProjectSelected);
    }

    /** The broadcaster's handler: a project change carrying a project selects it. */
    method OnMessage(msg: Incoming) returns (r: Option<Result<bool>>)
      requires Valid()
      modifies this
      ensures r.Some? <==> msg.ChangeProject? && msg.project.Some?
      ensures r.None? ==> Abstract() == old(Abstract()) && outbox == old(outbox)
      ensures r.Some? ==> var s := SelectStep(old(Abstract()), msg.project.value);
        && (s.Err? ==> r.value.Err? && Abstract() == old(Abstract()))
        && (s.Ok? ==> r.value == Ok(s.value.1) && Abstract() == s.value.0)
      ensures Valid()
    {
      if msg.ChangeProject? && msg.project.Some? {
        var s := SelectProject(msg.project.value);
        return Some(s);
      }
      return None;
    }

    /**
     * `getItems`/`getProjects`/`getPmos`/`getLayouts`/`getDomains`/`getPeople`
     * up to the `getAll` call: the guard, then the tenant (`''` without one)
     * and the `path` parameter.
     */
    method Fetch(c: Collection) returns (r: Result<(string, Option<string>)>)
      ensures r.Ok? <==> Permits(status, c)
      ensures r.Err? ==> r.msg == GUARD_ERROR
      ensures r.Ok? ==> r.value == (tenantId.GetOr(""), QueryPath(c, project))
    {
      var guard: Result<bool>;
      if NeedsProject(c) {
        guard := GuardProjectOperationOk();
      } else {
        guard := IsReady();
      }
      if guard.Err? {
        return Err(guard.msg);
      }
      var path := if c == Projects || c == Domains || c == People then Some("/")
                  else if project.Some? then Some(project.value.location) else None;
      return Ok((tenantId.GetOr(""), path));
    }

    /** The error handler of every fetch: a 401 is broadcast as an authentication failure. */
    method OnFetchError(httpStatus: int)
      modifies this
      ensures Abstract() == old(Abstract())
      ensures httpStatus == 401 ==> outbox == old(outbox) + [ApiAuthFail]
      ensures httpStatus != 401 ==> outbox == old(outbox)
    {
      if httpStatus == 401 {
        outbox := outbox + [ApiAuthFail];
      }
    }

    /** `getProjectResourcePath(type)`. */
    method GetProjectResourcePath(resourceType: string) returns (r: string)
      ensures r == ProjectResourcePath(project, resourceType)
      ensures project.Some? && project.value.location != "" ==> r == project.value.location
    {
      if project.Some? && project.value.location != "" {
        return project.value.location;
      }
      if project.None? {
        return "undefined";
      }
      var paths := project.value.resourcePaths;
      var i := 0;
      while i < |paths|
        invariant 0 <= i <= |paths|
        invariant FindPath(paths[i..], resourceType) == FindPath(paths, resourceType)
      {
        if paths[i].resourceType == resourceType {
          return paths[i].path;
        }
        assert paths[i..][1..] == paths[i + 1..];
        i := i + 1;
      }
      return "undefined";
    }

    /**
     * `getNextPmoKey(kind)`: rejected by the `getPmos` guard without a
     * selected project; otherwise the loop over the delivered PMOs keeps
     * the largest key number of the kind, from 0.
     */
    method GetNextPmoKey(kind: Kind, pmos: seq<Pmo>, parseFloat: string -> Option<real>) returns (r: Result<real>)
      ensures r.Err? <==> status != ProjectSelected
      ensures r.Ok? ==> r.value == MaxPmoKey(pmos, kind, parseFloat) && r.value >= 0.0
      ensures r.Ok? ==> forall i :: 0 <= i < |pmos| && Numbered(pmos[i], kind, parseFloat).Some? ==>
        Numbered(pmos[i], kind, parseFloat).value <= r.value
    {
      var guard := GuardProjectOperationOk();
      if guard.Err? {
        return Err(guard.msg);
      }
      var maxId := 0.0;
      var i := 0;
      while i < |pmos|
        invariant 0 <= i <= |pmos|
        invariant maxId == MaxPmoKey(pmos[..i], kind, parseFloat)
      {
        assert pmos[..i + 1][..i] == pmos[..i];
        if pmos[i].kind == kind {
          var id := KeyNumber(pmos[i].key, parseFloat);
          if id.Some? && id.value >= maxId {
            maxId := id.value;
          }
        }
        i := i + 1;
      }
      assert pmos[..i] == pmos;
      MaxPmoKeyIsMax(pmos, kind, parseFloat);
      return Ok(maxId);
    }
  }
}
