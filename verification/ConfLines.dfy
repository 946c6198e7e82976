/** A `.project-conf.toml` as a sequence of classified lines, and the fleet-wide target of
    tools/fleet-sync/fleet.py. */
module ConfLines {
  import opened Options
  import Seqs

  datatype TierName = Huge | Large | Medium | Small | OtherTier(name: string)

  /** The tables retired outright: autonomous, fleet.agents, fleet.monitoring, fleet.budget, fleet.router. */
  datatype GoneTable = Autonomous | FleetAgents | FleetMonitoring | FleetBudget | FleetRouter

  /** What a header line names. `UnderGone` is a sub-table of a retired table, which is not itself one;
      `UnderReview` and `UnderStages` are sub-tables of the two tables with retired keys, each with the key
      that names it and what follows the key. */
  datatype Section =
    | Tier(tier: TierName)
    | Gone(table: GoneTable)
    | UnderGone(table: GoneTable, rest: string)
    | PrReview
    | UnderReview(key: Key, rest: string)
    | StageTiers
    | UnderStages(key: Key, rest: string)
    | Table(name: string)

  /** `Word` is any other identifier; `Dashed` is a key that is not an identifier. */
  datatype Key =
    | Model | Version | Effort | Provider | Backend | TrackingDir | ArchiveDir
    | Fix | CoderabbitFix | GreptileFix | Run
    | Word(name: string) | Dashed(name: string)

  /** The text up to a value: as found, or in the rewriter's own fixed spelling for that key. */
  datatype Lead = AsFound(text: string) | Canonical

  /** The text after a value or a header: as found, or one of the two comments the rewriter writes. */
  datatype Tail = Rest(text: string) | SetOn(date: string) | WasSetOn(was: string, date: string)

  /** A value without double quotes, which the rewriter leaves alone: a string in single quotes; an inline
      table, by its keys, those of them whose value is not empty and those whose value is a table; the first
      line of a value, not a table, that goes on below; a boolean the rewriter repaired, with its comment; or
      any other. `empty` says whether it decodes to nothing: false, zero, or something without elements. */
  datatype Value =
    | Raw(text: string, empty: bool)
    | Literal(value: string)
    | Inline(keys: set<string>, full: set<string>, tables: set<string>)
    | Begun(text: string, empty: bool)
    | Repaired(yes: bool, comment: string)

  /** `Retired` is a line commented out as retired, `More` a line of a value begun above. An array-of-tables
      header is not a header to the rewriter. Bare yes and no apart, every line is valid by itself. */
  datatype Line =
    | Header(sec: Section, tail: Tail)
    | ArrayHeader(text: string)
    | Quoted(lead: Lead, key: Key, value: string, tail: Tail)
    | YesNo(lead: Lead, key: Key, yes: bool, comment: string)
    | Assign(lead: Lead, key: Key, rhs: Value)
    | More(text: string, ends: bool)
    | Retired(original: Line)
    | Blank(text: string)
    | Other(text: string)

  const TIER_ORDER: seq<TierName> := [Huge, Large, Medium, Small]
  const TARGET_VERSION := "5"
  const TARGET_EFFORT := "high"

  predicate IsTarget(t: TierName) {
    !t.OtherTier?
  }

  function TargetModel(t: TierName): string {
    if t == Huge || t == Large then "opus" else "sonnet"
  }

  predicate InTargetTier(cur: Option<Section>) {
    cur.Some? && cur.value.Tier? && IsTarget(cur.value.tier)
  }

  predicate InGone(cur: Option<Section>) {
    cur.Some? && cur.value.Gone?
  }

  predicate IsKeyLine(l: Line) {
    l.Quoted? || l.YesNo? || l.Assign?
  }

  predicate HasIdentKey(l: Line) {
    IsKeyLine(l) && !l.key.Dashed?
  }

  /** Single keys retired inside tables that survive. */
  predicate RetiredKey(cur: Option<Section>, k: Key) {
    (cur == Some(PrReview) && (k == Fix || k == CoderabbitFix || k == GreptileFix))
    || (cur == Some(StageTiers) && k == Run)
  }

  /** The section a line belongs to, given the one before it. */
  function SectionAt(cur: Option<Section>, l: Line): Option<Section> {
    if l.Header? then Some(l.sec) else cur
  }

  // ---------------------------------------------------------------------------------------
  // What a reader of the file finds in a line
  // ---------------------------------------------------------------------------------------

  /** How a key may be written: anyhow; in double quotes or not; not as this string, in double quotes or outside
      them; with a value that is not empty; as an inline table with such a value under a name; as anything a name
      can be looked up in, successfully or with an error; as anything but a table; or as an inline table with
      something else than a table under a name. */
  datatype Form =
    | Any | Quotes | Bare | QuotesNot(want: string) | BareNot(want: string) | Full
    | Within(name: string) | Lists(name: string) | NoTable | HoldsNoTable(name: string)
  datatype Probe = Probe(key: Key, form: Form)

  /** The string a key line sets, if it sets one. */
  function ReadsAs(l: Line): Option<string> {
    if l.Quoted? then Some(l.value) else if l.Assign? && l.rhs.Literal? then Some(l.rhs.value) else None
  }

  predicate IsEmpty(l: Line)
    requires IsKeyLine(l)
  {
    match l
    case Quoted(_, _, value, _) => value == ""
    case YesNo(_, _, yes, _) => !yes
    case Assign(_, _, rhs) =>
      match rhs
      case Raw(_, empty) => empty
      case Literal(value) => value == ""
      case Inline(keys, _, _) => keys == {}
      case Begun(_, empty) => empty
      case Repaired(yes, _) => !yes
  }

  predicate Fits(l: Line, f: Form)
    requires IsKeyLine(l)
  {
    match f
    case Any => true
    case Quotes => l.Quoted?
    case Bare => !l.Quoted?
    case QuotesNot(want) => l.Quoted? && l.value != want
    case BareNot(want) => !l.Quoted? && ReadsAs(l) != Some(want)
    case Full => !IsEmpty(l)
    case Within(name) => l.Assign? && l.rhs.Inline? && name in l.rhs.full
    case NoTable => !(l.Assign? && l.rhs.Inline?)
    case HoldsNoTable(name) => l.Assign? && l.rhs.Inline? && name in l.rhs.keys && name !in l.rhs.tables
    case Lists(name) =>
      if ReadsAs(l).Some? then Seqs.Contains(ReadsAs(l).value, name)
      else !(l.Assign? && l.rhs.Inline?) || name in l.rhs.keys
  }

  /** Forms that ask for more of a value than its quotes. */
  predicate LooksInside(f: Form) {
    f.QuotesNot? || f.Full? || f.Within? || f.Lists? || f.NoTable? || f.HoldsNoTable?
  }

  predicate Hit(l: Line, p: Probe) {
    IsKeyLine(l) && l.key == p.key && Fits(l, p.form)
  }

  function TierKey(t: TierName): string {
    match t
    case Huge => "huge"
    case Large => "large"
    case Medium => "medium"
    case Small => "small"
    case OtherTier(name) => name
  }

  /** The table a retired table is in, if any, and its name there. */
  function GoneParent(g: GoneTable): Option<Section> {
    if g.Autonomous? then None else Some(Table("fleet"))
  }

  function GoneKey(g: GoneTable): string {
    match g
    case Autonomous => "autonomous"
    case FleetAgents => "agents"
    case FleetMonitoring => "monitoring"
    case FleetBudget => "budget"
    case FleetRouter => "router"
  }

  function KeyName(k: Key): string {
    match k
    case Model => "model"
    case Version => "version"
    case Effort => "effort"
    case Provider => "provider"
    case Backend => "backend"
    case TrackingDir => "tracking_dir"
    case ArchiveDir => "archive_dir"
    case Fix => "fix"
    case CoderabbitFix => "coderabbit_fix"
    case GreptileFix => "greptile_fix"
    case Run => "run"
    case Word(name) => name
    case Dashed(name) => name
  }

  function GoneName(g: GoneTable): string {
    (if g.Autonomous? then "" else "fleet.") + GoneKey(g)
  }

  function Below(table: string, rest: string): string {
    if rest == "" then table else table + "." + rest
  }

  /** The name in a header's brackets. */
  function SectionName(sec: Section): string {
    match sec
    case Tier(t) => "tiers." + TierKey(t)
    case Gone(g) => GoneName(g)
    case UnderGone(g, rest) => GoneName(g) + "." + rest
    case PrReview => "pr_review"
    case UnderReview(k, rest) => Below("pr_review." + KeyName(k), rest)
    case StageTiers => "stage_tiers"
    case UnderStages(k, rest) => Below("stage_tiers." + KeyName(k), rest)
    case Table(name) => name
  }
}
