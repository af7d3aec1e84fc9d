/**
 * The PMO records (src/app/core/models/pmo.ts) and the project records
 * (src/app/core/infra/repo/projects.repository.ts) that the workspace, the
 * roadmapper and the PMO editor read, restricted to the fields they use.
 */
module PmoModels {
  import opened Wrappers

  datatype Kind = ML | SS | TS | RK | AS | ID

  /** The kind as it is written in a PMO key, `TS` in `TS.12`. */
  function KindName(k: Kind): (r: string)
    ensures |r| == 2
  {
    match k
    case ML => "ML"
    case SS => "SS"
    case TS => "TS"
    case RK => "RK"
    case AS => "AS"
    case ID => "ID"
  }

  datatype Category = ATD | ANA | QUA | QAA | ORG | DEV

  /**
   * `Reference`: a PMO by tenant, project and id. The class declares no `key`;
   * `key` is what reading `.key` off a stored reference yields: present only
   * when the stored record happens to carry one.
   */
  datatype Reference = Reference(tenantId: string, projectId: string, id: string, name: Option<string>, key: Option<string>)

  datatype LinkKind = Dependency | Relation

  datatype Link = Link(kind: LinkKind, from: Reference, to: Reference)

  datatype ResourceEstimation = ResourceEstimation(resourceEmail: string, effortO: real, effortM: real, effortP: real)

  datatype Pmo = Pmo(
    id: string,
    tenantId: string,
    projectId: string,
    kind: Kind,
    key: string,
    name: string,
    category: Category,
    active: bool,
    component: string,
    domain: string,
    description: string,
    ownerEmail: string,
    location: string,
    estimations: seq<ResourceEstimation>,
    links: seq<Link>)

  /** `new Pmo()`: a TS item in category DEV, active, with everything else empty. */
  const NEW_PMO: Pmo := Pmo("", "", "", TS, "", "", DEV, true, "", "", "", "", "", [], [])

  /** `ResourcePath` of a project: where resources of one type live. */
  datatype ResourcePath = ResourcePath(resourceType: string, path: string)

  datatype Project = Project(id: string, projectId: string, location: string, resourcePaths: seq<ResourcePath>)
}
