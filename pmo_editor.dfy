/**
 * The PMO editor dialog: the form it fills from a PMO (or from the seed of
 * a new one), the estimation and link lists the user edits, the key it
 * generates for a new PMO, and the record `save` sends. The form holds a
 * link as its target id only. The repository calls `save` ends in are
 * returned as requests; the largest key number `getNextPmoKey` resolves
 * to, or its rejection, is a parameter, and so are the workspace's
 * tenant, project and resource path.
 */
module PmoEditor {
  import opened Wrappers
  import opened Strings
  import opened Collections
  import opened PmoModels
  import opened Workspace
  import opened Roadmapper

  datatype Mode = Create | Edit

  /** The form's raw value: every control, links reduced to their `to_id`. */
  datatype EditorForm = EditorForm(
    projectId: string,
    kind: Kind,
    key: string,
    active: bool,
    category: Category,
    component: string,
    domain: string,
    name: string,
    description: string,
    ownerEmail: string,
    id: string,
    estimations: seq<ResourceEstimation>,
    linkTargets: seq<string>)

  /** The form as the dialog builds it: kind TS, category DEV, active, everything else empty. */
  const EMPTY_FORM: EditorForm := EditorForm("", TS, "", true, DEV, "", "", "", "", "", "", [], [])

  /** What the add-estimation form is reset to. */
  const EMPTY_ESTIMATION: ResourceEstimation := ResourceEstimation("", 0.0, 0.0, 0.0)

  /** The ids a list of links points to. */
  function LinkTargets(links: seq<Link>): (ids: seq<string>)
    ensures |ids| == |links|
    ensures forall i :: 0 <= i < |links| ==> ids[i] == links[i].to.id
  {
    seq(|links|, i requires 0 <= i < |links| => links[i].to.id)
  }

  /** `patchFormFromModel(p)`. */
  function FormFromModel(p: Pmo): (f: EditorForm)
    ensures f.linkTargets == LinkTargets(p.links) && f.estimations == p.estimations
    ensures f.id == p.id && f.key == p.key && f.kind == p.kind && f.projectId == p.projectId
    ensures f.active == p.active && f.category == p.category && f.component == p.component && f.domain == p.domain
    ensures f.name == p.name && f.description == p.description && f.ownerEmail == p.ownerEmail
  {
    EditorForm(p.projectId, p.kind, p.key, p.active, p.category, p.component, p.domain, p.name,
               p.description, p.ownerEmail, p.id, p.estimations, LinkTargets(p.links))
  }

  /** The PMO a new one starts from: the workspace's project (or `''`), TS, DEV, active, no key. */
  function CreateSeed(wsProjectId: Option<string>): (p: Pmo)
    ensures p.projectId == wsProjectId.GetOr("") && p.kind == TS && p.category == DEV && p.active && p.key == ""
    ensures p.id == "" && p.links == [] && p.estimations == []
  {
    NEW_PMO.(projectId := wsProjectId.GetOr(""), active := true, category := DEV, kind := TS, key := "")
  }

  /** `allPmos.find(p => p.id === id)`. */
  function FindById(pmos: seq<Pmo>, id: string): (r: Option<Pmo>)
    ensures r.None? <==> forall i :: 0 <= i < |pmos| ==> pmos[i].id != id
    ensures r.Some? ==> r.value.id == id
    ensures r.Some? ==> exists i :: 0 <= i < |pmos| && pmos[i] == r.value && forall j :: 0 <= j < i ==> pmos[j].id != id
  {
    var i := FirstIndex(pmos, (p: Pmo) => p.id == id);
    if i < 0 then None else Some(pmos[i])
  }

  /** The dialog's state. */
  datatype EditorState = EditorState(mode: Mode, allPmos: seq<Pmo>, pmo: Option<Pmo>, form: EditorForm, addEst: ResourceEstimation)

  /** The `next` handler of `ngOnInit`: keep the PMOs, then load the edited PMO or seed a new one. */
  function LoadedStep(s: EditorState, pmos: seq<Pmo>, pmoId: Option<string>, wsProjectId: Option<string>): (r: EditorState)
    ensures r.allPmos == pmos && r.mode == s.mode && r.addEst == s.addEst
    ensures s.mode == Create ==> r.pmo == Some(CreateSeed(wsProjectId)) && r.form == FormFromModel(CreateSeed(wsProjectId))
    ensures s.mode == Edit && pmoId.Some? && pmoId.value != "" ==>
      r.pmo == FindById(pmos, pmoId.value)
      && r.form == (if r.pmo.Some? then FormFromModel(r.pmo.value) else s.form)
    ensures s.mode == Edit && (pmoId.None? || pmoId.value == "") ==> r == s.(allPmos := pmos)
  {
    var s1 := s.(allPmos := pmos);
    if s.mode == Edit && pmoId.Some? && pmoId.value != "" then
      var found := FindById(pmos, pmoId.value);
      if found.Some? then s1.(pmo := found, form := FormFromModel(found.value)) else s1.(pmo := None)
    else if s.mode == Create then
      var p := CreateSeed(wsProjectId);
      s1.(pmo := Some(p), form := FormFromModel(p))
    else s1
  }

  /** The key of a new PMO: its kind, a dot, and one more than the largest number in use. */
  function NewKey(k: Kind, max: real, fmt: real -> string): (key: string)
    ensures key == KindName(k) + "." + fmt(max + 1.0)
  {
    KindName(k) + "." + fmt(max + 1.0)
  }

  /** Choosing a kind while creating: the key follows it once `getNextPmoKey` resolves. */
  function KindSelectedStep(s: EditorState, k: Kind, max: Result<real>, fmt: real -> string): (r: EditorState)
    ensures s.mode == Edit ==> r == s
    ensures s.mode == Create ==> r.form.kind == k
    ensures s.mode == Create && max.Ok? ==> r.form.key == NewKey(k, max.value, fmt)
    ensures max.Err? ==> r.form.key == s.form.key
    ensures r.(form := s.form) == s
  {
    if s.mode == Edit then s
    else
      var f := s.form.(kind := k);
      if max.Ok? then s.(form := f.(key := NewKey(k, max.value, fmt))) else s.(form := f)
  }

  /** The pieces of `a.b` split on `.` are `a` and `b`, when neither holds a dot. */
  lemma SplitOnDot(a: string, b: string)
    requires '.' !in a && '.' !in b
    ensures SplitOn(a + "." + b, '.') == [a, b]
  {
    var s := a + "." + b;
    var i := IndexOf(s, '.');
    assert s[|a|] == '.';
    assert forall j :: 0 <= j < |a| ==> s[j] == a[j];
    assert forall j :: 0 <= j < i ==> s[..i][j] == s[j];
    assert i == |a|;
    assert s[..i] == a && s[i + 1..] == b;
    assert IndexOf(b, '.') == |b|;
  }

  /**
   * A generated key is new among the PMOs of its kind: its number is one
   * more than the largest `getNextPmoKey` found, provided the number is
   * written without a dot and reads back as itself.
   */
  lemma NewKeyIsFresh(pmos: seq<Pmo>, k: Kind, parseFloat: string -> Option<real>, fmt: real -> string, i: nat)
    requires i < |pmos| && pmos[i].kind == k
    requires var next := MaxPmoKey(pmos, k, parseFloat) + 1.0; '.' !in fmt(next) && parseFloat(fmt(next)) == Some(next)
    ensures pmos[i].key != NewKey(k, MaxPmoKey(pmos, k, parseFloat), fmt)
  {
    var m := MaxPmoKey(pmos, k, parseFloat);
    var key := NewKey(k, m, fmt);
    assert '.' !in KindName(k) by {
      match k
      case ML => case SS => case TS => case RK => case AS => case ID =>
    }
    SplitOnDot(KindName(k), fmt(m + 1.0));
    assert KeyNumber(key, parseFloat) == Some(m + 1.0);
    MaxPmoKeyIsMax(pmos, k, parseFloat);
    assert Numbered(pmos[i], k, parseFloat) != Some(m + 1.0);
  }

  /** `removeAt(i)` on a form array. */
  function RemoveAt<T>(s: seq<T>, i: nat): (r: seq<T>)
    requires i < |s|
    ensures |r| == |s| - 1
    ensures forall j :: 0 <= j < i ==> r[j] == s[j]
    ensures forall j :: i <= j < |r| ==> r[j] == s[j + 1]
  {
    s[..i] + s[i + 1..]
  }

  /** Removing one entry removes exactly that one. */
  lemma RemoveAtElements<T>(s: seq<T>, i: nat)
    requires i < |s|
    ensures multiset(RemoveAt(s, i)) + multiset{s[i]} == multiset(s)
  {
    assert s == s[..i] + [s[i]] + s[i + 1..];
  }

  /** Removing the entry just added gives back the list. */
  lemma RemoveAtLast<T>(s: seq<T>, x: T)
    ensures RemoveAt(s + [x], |s|) == s
  {
    assert (s + [x])[..|s|] == s;
  }

  /** `addEstimation`: a valid entry is appended and the add form is cleared; an invalid one changes nothing. */
  function AddEstimationStep(s: EditorState, valid: bool): (r: EditorState)
    ensures !valid ==> r == s
    ensures valid ==> r.form.estimations == s.form.estimations + [s.addEst] && r.addEst == EMPTY_ESTIMATION
    ensures r.(form := s.form, addEst := s.addEst) == s
    ensures r.form.(estimations := s.form.estimations) == s.form
  {
    if !valid then s
    else s.(form := s.form.(estimations := s.form.estimations + [s.addEst]), addEst := EMPTY_ESTIMATION)
  }

  /** `removeEstimation(i)`. */
  function RemoveEstimationStep(s: EditorState, i: nat): (r: EditorState)
    requires i < |s.form.estimations|
    ensures r == s.(form := s.form.(estimations := RemoveAt(s.form.estimations, i)))
  {
    s.(form := s.form.(estimations := RemoveAt(s.form.estimations, i)))
  }

  /**
   * `addLinkByPmo(targetId)`: an empty target, the PMO's own id and a
   * target already listed are ignored; anything else is appended once.
   */
  function AddLinkStep(s: EditorState, targetId: string): (r: EditorState)
    ensures var ignored := targetId == "" || (s.form.id != "" && targetId == s.form.id) || targetId in s.form.linkTargets;
      (ignored ==> r == s) && (!ignored ==> r == s.(form := s.form.(linkTargets := s.form.linkTargets + [targetId])))
  {
    if targetId == "" then s
    else if s.form.id != "" && targetId == s.form.id then s
    else if targetId in s.form.linkTargets then s
    else s.(form := s.form.(linkTargets := s.form.linkTargets + [targetId]))
  }

  /** Targets added through `addLinkByPmo` stay distinct, non-empty and different from the PMO's own id. */
  lemma AddLinkKeepsTargetsClean(s: EditorState, targetId: string)
    requires NoDup(s.form.linkTargets) && "" !in s.form.linkTargets
    requires s.form.id == "" || s.form.id !in s.form.linkTargets
    ensures var t := AddLinkStep(s, targetId).form.linkTargets;
      NoDup(t) && "" !in t && (s.form.id == "" || s.form.id !in t)
  {
  }

  /** Adding a link and removing it again gives back the list. */
  lemma AddThenRemoveLink(s: EditorState, targetId: string)
    requires AddLinkStep(s, targetId) != s
    ensures var a := AddLinkStep(s, targetId); RemoveLinkStep(a, |a.form.linkTargets| - 1) == s
  {
    RemoveAtLast(s.form.linkTargets, targetId);
  }

  /** `removeLink(i)`. */
  function RemoveLinkStep(s: EditorState, i: nat): (r: EditorState)
    requires i < |s.form.linkTargets|
    ensures r == s.(form := s.form.(linkTargets := RemoveAt(s.form.linkTargets, i)))
  {
    s.(form := s.form.(linkTargets := RemoveAt(s.form.linkTargets, i)))
  }

  /** `getPmoKeyById(id)`: the key of the first PMO with that id; `''` for no id or an unknown one. */
  function PmoKeyById(pmos: seq<Pmo>, id: Option<string>): (key: string)
    ensures id.None? || id.value == "" ==> key == ""
    ensures id.Some? && id.value != "" && (forall i :: 0 <= i < |pmos| ==> pmos[i].id != id.value) ==> key == ""
    ensures id.Some? && id.value != "" ==>
      forall i | 0 <= i < |pmos| && pmos[i].id == id.value && (forall j :: 0 <= j < i ==> pmos[j].id != id.value) :: key == pmos[i].key
  {
    if id.None? || id.value == "" then ""
    else
      match FindById(pmos, id.value)
      case None => ""
      case Some(p) => p.key
  }

  /** The link `save` builds for one selected target. */
  function SavedLink(tid: string, allPmos: seq<Pmo>, tenant: string, projectId: string, fromId: string): (l: Link)
    ensures l.kind == Dependency && l.to.id == tid && l.to.key.None?
    ensures l.from == Reference(tenant, projectId, fromId, Some(""), None)
    ensures l.to.tenantId == tenant
    ensures FindById(allPmos, tid).None? ==> l.to.projectId == projectId && l.to.name == Some("")
    ensures FindById(allPmos, tid).Some? ==>
      l.to.projectId == FindById(allPmos, tid).value.projectId && l.to.name == Some(FindById(allPmos, tid).value.name)
  {
    var to := FindById(allPmos, tid);
    Link(Dependency,
         Reference(tenant, projectId, fromId, Some(""), None),
         Reference(tenant, if to.Some? then to.value.projectId else projectId, tid,
                   Some(if to.Some? then to.value.name else ""), None))
  }

  /** The links `save` builds: one dependency per selected target, in order. */
  function SavedLinks(targets: seq<string>, allPmos: seq<Pmo>, tenant: string, projectId: string, fromId: string): (links: seq<Link>)
    ensures |links| == |targets|
    ensures forall i :: 0 <= i < |targets| ==> links[i] == SavedLink(targets[i], allPmos, tenant, projectId, fromId)
  {
    seq(|targets|, i requires 0 <= i < |targets| => SavedLink(targets[i], allPmos, tenant, projectId, fromId))
  }

  /** The links saved point at exactly the targets selected. */
  lemma SavedLinksTargets(targets: seq<string>, allPmos: seq<Pmo>, tenant: string, projectId: string, fromId: string)
    ensures LinkTargets(SavedLinks(targets, allPmos, tenant, projectId, fromId)) == targets
  {
  }

  /**
   * The PMO `save` sends before any key is generated: the loaded PMO (or a
   * new one) with the form's values, the workspace's PMO path as location,
   * and the links rebuilt from the selected targets.
   */
  function SaveModel(s: EditorState, tenant: string, location: string): (m: Pmo)
    ensures m.id == s.pmo.GetOr(NEW_PMO).id
    ensures m.projectId == s.form.projectId && m.key == s.form.key && m.kind == s.form.kind
    ensures m.estimations == s.form.estimations && m.location == location
    ensures m.links == SavedLinks(s.form.linkTargets, s.allPmos, tenant, s.form.projectId, m.id)
  {
    var base := s.pmo.GetOr(NEW_PMO);
    var f := s.form;
    base.(projectId := f.projectId, kind := f.kind, key := f.key, active := f.active, category := f.category,
          component := f.component, domain := f.domain, name := f.name, description := f.description,
          ownerEmail := f.ownerEmail, estimations := f.estimations, location := location,
          links := SavedLinks(f.linkTargets, s.allPmos, tenant, f.projectId, base.id))
  }

  /** The repository call `save` ends in. */
  datatype SaveRequest = CreateRequest(tenant: string, model: Pmo) | UpdateRequest(tenant: string, model: Pmo)

  /**
   * `save`: nothing for an invalid form; a create for a new PMO (or one
   * without an id), with a generated key when it has none; an update otherwise.
   */
  function SaveOf(s: EditorState, valid: bool, tenant: string, location: string, max: Result<real>, fmt: real -> string)
    : (r: Result<Option<SaveRequest>>)
    ensures !valid ==> r == Ok(None)
    ensures r.Err? ==> valid && max.Err? && SaveModel(s, tenant, location).key == ""
    ensures r.Ok? && r.value.Some? && r.value.value.UpdateRequest? ==> s.mode == Edit && SaveModel(s, tenant, location).id != ""
    ensures r.Ok? && r.value.Some? ==> r.value.value.model.key != "" || r.value.value.UpdateRequest?
    ensures r.Ok? && r.value.Some? ==> r.value.value.tenant == tenant
    ensures r.Ok? && r.value.Some? ==> r.value.value.model == SaveModel(s, tenant, location).(key := r.value.value.model.key)
    ensures var m := SaveModel(s, tenant, location);
      valid && (s.mode == Create || m.id == "") ==>
        if m.key != "" then r == Ok(Some(CreateRequest(tenant, m)))
        else if max.Ok? then r == Ok(Some(CreateRequest(tenant, m.(key := NewKey(m.kind, max.value, fmt)))))
        else r == Err(max.msg)
    ensures var m := SaveModel(s, tenant, location);
      valid && s.mode == Edit && m.id != "" ==> r == Ok(Some(UpdateRequest(tenant, m)))
  {
    if !valid then Ok(None)
    else
      var m := SaveModel(s, tenant, location);
      if s.mode == Create || m.id == "" then
        if m.key != "" then Ok(Some(CreateRequest(tenant, m)))
        else if max.Err? then Err(max.msg)
        else
          assert |NewKey(m.kind, max.value, fmt)| >= 2;
          Ok(Some(CreateRequest(tenant, m.(key := NewKey(m.kind, max.value, fmt)))))
      else
        assert s.mode == Edit && m.id != "";
        Ok(Some(UpdateRequest(tenant, m)))
  }

  /**
   * Loading a PMO into the form and saving it unchanged gives the PMO back,
   * apart from the location the workspace supplies and the links, which are
   * rebuilt from their targets.
   */
  lemma LoadThenSaveKeepsFields(s: EditorState, p: Pmo, tenant: string, location: string)
    requires s.pmo == Some(p) && s.form == FormFromModel(p)
    ensures SaveModel(s, tenant, location).(location := p.location, links := p.links) == p
  {
  }

  /**
   * A key `save` generates is new among the PMOs of its kind, when the
   * largest number it was given is the one `getNextPmoKey` computes over
   * those PMOs and the number is written without a dot and reads back as itself.
   */
  lemma SaveGeneratesFreshKey(s: EditorState, tenant: string, location: string, fmt: real -> string,
                              pmos: seq<Pmo>, parseFloat: string -> Option<real>, k: Kind, i: nat)
    requires var m := SaveModel(s, tenant, location); (s.mode == Create || m.id == "") && m.key == "" && m.kind == k
    requires i < |pmos| && pmos[i].kind == k
    requires var next := MaxPmoKey(pmos, k, parseFloat) + 1.0; '.' !in fmt(next) && parseFloat(fmt(next)) == Some(next)
    ensures var r := SaveOf(s, true, tenant, location, Ok(MaxPmoKey(pmos, k, parseFloat)), fmt);
      r.Ok? && r.value.Some? && r.value.value.CreateRequest? && r.value.value.model.key != pmos[i].key
  {
    NewKeyIsFresh(pmos, k, parseFloat, fmt, i);
  }

  /** Loading a PMO and saving it unchanged keeps its link targets, in order. */
  lemma SaveKeepsLoadedTargets(s: EditorState, p: Pmo, tenant: string, location: string)
    requires s.pmo == Some(p) && s.form == FormFromModel(p)
    ensures LinkTargets(SaveModel(s, tenant, location).links) == LinkTargets(p.links)
  {
    SavedLinksTargets(LinkTargets(p.links), s.allPmos, tenant, p.projectId, p.id);
  }

  /**
   * No saved link carries a target key, so on the roadmap each one
   * resolves to `"undefined"` unless some PMO is filed under
   * `<project>::undefined`.
   */
  lemma SavedLinksUnresolvedOnRoadmap(s: EditorState, tenant: string, location: string, pmos: seq<Pmo>, i: nat)
    requires i < |s.form.linkTargets|
    requires var to := SaveModel(s, tenant, location).links[i].to;
      forall j :: 0 <= j < |pmos| ==> PmoProjectKey(pmos[j]) != to.projectId + "::undefined"
    ensures ResolveTarget(ByProjectKey(pmos), SaveModel(s, tenant, location).links[i].to) == "undefined"
  {
    KeylessTargetUnresolved(pmos, SaveModel(s, tenant, location).links[i].to);
  }

  /**
   * After a create, links saved without a source id get the new PMO's id
   * and project as their source, and the PMO is updated; `None` when no
   * update is needed.
   */
  function FixLinkSources(saved: Pmo, sentLinks: nat): (r: Option<Pmo>)
    ensures r.Some? <==> saved.id != "" && sentLinks > 0 && exists l :: l in saved.links && l.from.id == ""
    ensures r.Some? ==> |r.value.links| == |saved.links|
    ensures r.Some? ==> forall i :: 0 <= i < |saved.links| ==>
      r.value.links[i].from.id == saved.id && r.value.links[i].from.projectId == saved.projectId && r.value.links[i].to == saved.links[i].to
      && r.value.links[i].from.tenantId == saved.links[i].from.tenantId && r.value.links[i].kind == saved.links[i].kind
    ensures r.Some? ==> r.value.(links := saved.links) == saved
  {
    if saved.id != "" && sentLinks > 0 && exists l :: l in saved.links && l.from.id == "" then
      Some(saved.(links := seq(|saved.links|, i requires 0 <= i < |saved.links| =>
        saved.links[i].(from := saved.links[i].from.(id := saved.id, projectId := saved.projectId)))))
    else None
  }

  /** The fixed PMO needs no second fix. */
  lemma FixLinkSourcesOnce(saved: Pmo, sentLinks: nat)
    requires FixLinkSources(saved, sentLinks).Some?
    ensures FixLinkSources(FixLinkSources(saved, sentLinks).value, sentLinks).None?
  {
    var fixed := FixLinkSources(saved, sentLinks).value;
    forall l | l in fixed.links ensures l.from.id != "" {
      var i :| 0 <= i < |fixed.links| && fixed.links[i] == l;
    }
  }

  /** The PMO editor dialog component. */
  class PmoEditorDialog {
    var mode: Mode
    var allPmos: seq<Pmo>
    var pmo: Option<Pmo>
    var form: EditorForm
    var addEst: ResourceEstimation

    function View(): EditorState
      reads this
    {
      EditorState(mode, allPmos, pmo, form, addEst)
    }

    constructor()
      ensures View() == EditorState(Edit, [], None, EMPTY_FORM, EMPTY_ESTIMATION)
    {
      mode := Edit;
      allPmos := [];
      pmo := None;
      form := EMPTY_FORM;
      addEst := EMPTY_ESTIMATION;
    }

    /** The start of `ngOnInit`: the mode the dialog was opened in, edit by default. */
    method Open(dataMode: Option<Mode>)
      modifies this
      ensures View() == old(View()).(mode := dataMode.GetOr(Edit))
    {
      mode := dataMode.GetOr(Edit);
    }

    /** The `next` handler of `ngOnInit`'s PMO request. */
    method OnPmosLoaded(pmos: seq<Pmo>, pmoId: Option<string>, wsProjectId: Option<string>)
      modifies this
      ensures View() == LoadedStep(old(View()), pmos, pmoId, wsProjectId)
    {
      allPmos := pmos;
      if mode == Edit && pmoId.Some? && pmoId.value != "" {
        pmo := FindById(pmos, pmoId.value);
        if pmo.Some? {
          form := FormFromModel(pmo.value);
        }
      } else if mode == Create {
        var p := CreateSeed(wsProjectId);
        pmo := Some(p);
        form := FormFromModel(p);
      }
    }

    /** The `kind` control's value-change handler, present in create mode only. */
    method OnKindSelected(k: Kind, max: Result<real>, fmt: real -> string)
      modifies this
      ensures View() == KindSelectedStep(old(View()), k, max, fmt)
    {
      if mode == Edit {
        return;
      }
      form := form.(kind := k);
      if max.Ok? {
        form := form.(key := NewKey(k, max.value, fmt));
      }
    }

    /** `addEstimation`; `valid` is the add form's validity. */
    method AddEstimation(valid: bool)
      modifies this
      ensures View() == AddEstimationStep(old(View()), valid)
    {
      if !valid {
        return;
      }
      form := form.(estimations := form.estimations + [addEst]);
      addEst := EMPTY_ESTIMATION;
    }

    /** `removeEstimation(i)`. */
    method RemoveEstimation(i: nat)
      requires i < |form.estimations|
      modifies this
      ensures View() == RemoveEstimationStep(old(View()), i)
    {
      form := form.(estimations := RemoveAt(form.estimations, i));
    }

    /** `addLinkByPmo(targetId)`. */
    method AddLinkByPmo(targetId: string)
      modifies this
      ensures View() == AddLinkStep(old(View()), targetId)
    {
      if targetId == "" {
        return;
      }
      var selfId := form.id;
      if selfId != "" && targetId == selfId {
        return;
      }
      if targetId in form.linkTargets {
        return;
      }
      form := form.(linkTargets := form.linkTargets + [targetId]);
    }

    /** `removeLink(i)`. */
    method RemoveLink(i: nat)
      requires i < |form.linkTargets|
      modifies this
      ensures View() == RemoveLinkStep(old(View()), i)
    {
      form := form.(linkTargets := RemoveAt(form.linkTargets, i));
    }

    /** `save`, up to the repository request it makes. */
    method Save(valid: bool, tenant: string, location: string, max: Result<real>, fmt: real -> string)
      returns (r: Result<Option<SaveRequest>>)
      ensures r == SaveOf(View(), valid, tenant, location, max, fmt)
    {
      if !valid {
        return Ok(None);
      }
      var model := SaveModel(View(), tenant, location);
      if mode == Create || model.id == "" {
        if model.key == "" {
          if max.Err? {
            return Err(max.msg);
          }
          model := model.(key := NewKey(model.kind, max.value, fmt));
        }
        return Ok(Some(CreateRequest(tenant, model)));
      }
      return Ok(Some(UpdateRequest(tenant, model)));
    }
  }
}
