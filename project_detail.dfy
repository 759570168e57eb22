/**
 * src/components/ProjectDetail.jsx: find the stored project whose id matches the route
 * parameter, normalise it for display, and decide what the page and the GitHub link do.
 * The stored list and `JSON.parse` are inputs: `parse` returns `None` where `JSON.parse` throws.
 */
module ProjectDetail {
  import opened Wrappers
  import opened Json

  /** A stored project: its own properties; a key that is absent reads as `undefined`. */
  type Record = map<string, Value>

  const DefaultGithub: string := "https://github.com/sourabhbisht359-hub"
  const PrivateMarker: string := "Private"

  function Get(r: Record, key: string): Option<Value> {
    if key in r then Some(r[key]) else None
  }

  /** `normalizeArray`: an array as it is, a string holding an encoded array as that array, else empty. */
  function NormalizeArray(v: Option<Value>, parse: string -> Option<Value>): (r: seq<Value>)
    ensures (v.Some? && v.value.Array?) ==> r == v.value.items
    ensures (v.Some? && v.value.Str? && parse(v.value.s).Some? && parse(v.value.s).value.Array?)
            ==> r == parse(v.value.s).value.items
    ensures r != [] ==> v == Some(Array(r)) || (v.Some? && v.value.Str? && parse(v.value.s) == Some(Array(r)))
  {
    match v
    case Some(Array(items)) => items
    case Some(Str(s)) =>
      (match parse(s)
       case Some(Array(items)) => items
       case _ => [])
    case _ => []
  }

  /** The array-valued fields the resolver rewrites, and the link it defaults. */
  const TechStackKey: string := "TechStack"
  const FeaturesKey: string := "Features"
  const GithubKey: string := "Github"

  /** `String(p.id) === String(id)`, where the route parameter is already a string. */
  predicate Matches(r: Record, id: string)
    ensures "id" !in r ==> (Matches(r, id) <==> id == "undefined")
    ensures "id" in r && r["id"].Str? ==> (Matches(r, id) <==> r["id"].s == id)
    ensures "id" in r && r["id"].Number? && r["id"].n >= 0 ==> (Matches(r, id) <==> id == Decimal(r["id"].n))
  {
    PropertyString(Get(r, "id")) == id
  }

  /** `Array.prototype.find`, as the position of the first matching record. */
  function FindIndex(records: seq<Record>, id: string): (k: Option<nat>)
    ensures k.Some? ==> k.value < |records| && Matches(records[k.value], id)
    ensures k.Some? ==> forall j :: 0 <= j < k.value ==> !Matches(records[j], id)
    ensures k.None? ==> forall j :: 0 <= j < |records| ==> !Matches(records[j], id)
    decreases |records|
  {
    if records == [] then None
    else if Matches(records[0], id) then Some(0)
    else
      match FindIndex(records[1..], id)
      case None => None
      case Some(i) => Some(i + 1)
  }

  /** The object published with `setProject`: the found record with three fields rewritten. */
  function Resolve(found: Record, parse: string -> Option<Value>): (r: Record)
    ensures r.Keys == found.Keys + {TechStackKey, FeaturesKey, GithubKey}
    ensures forall k :: k in found && k != TechStackKey && k != FeaturesKey && k != GithubKey ==> r[k] == found[k]
    ensures r[TechStackKey] == Array(NormalizeArray(Get(found, TechStackKey), parse))
    ensures r[FeaturesKey] == Array(NormalizeArray(Get(found, FeaturesKey), parse))
    ensures Truthy(Get(found, GithubKey)) ==> r[GithubKey] == found[GithubKey]
    ensures !Truthy(Get(found, GithubKey)) ==> r[GithubKey] == Str(DefaultGithub)
    ensures Normalized(r)
  {
    var github := if Truthy(Get(found, GithubKey)) then found[GithubKey] else Str(DefaultGithub);
    found[TechStackKey := Array(NormalizeArray(Get(found, TechStackKey), parse))]
         [FeaturesKey := Array(NormalizeArray(Get(found, FeaturesKey), parse))]
         [GithubKey := github]
  }

  /** The shape every published project has. */
  predicate Normalized(r: Record) {
    && TechStackKey in r && r[TechStackKey].Array?
    && FeaturesKey in r && r[FeaturesKey].Array?
    && Truthy(Get(r, GithubKey))
  }

  /** Normalising a published project again changes nothing. */
  lemma ResolveIdempotent(found: Record, parse: string -> Option<Value>)
    ensures Resolve(Resolve(found, parse), parse) == Resolve(found, parse)
  {
  }


  /** A record that matches, with none matching before it, is the one `find` returns. */
  lemma FindsFirstMatch(records: seq<Record>, id: string, i: nat)
    requires i < |records| && Matches(records[i], id)
    requires forall j :: 0 <= j < i ==> !Matches(records[j], id)
    ensures FindIndex(records, id) == Some(i)
  {
  }

  /**
   * The effect that runs when the route id changes. With no match it returns early, so the
   * project shown before (initially none) stays.
   */
  function Load(current: Option<Record>, records: seq<Record>, id: string, parse: string -> Option<Value>): (r: Option<Record>)
    ensures r != current ==> r.Some? && Normalized(r.value)
    ensures r != current ==> exists i :: 0 <= i < |records| && Matches(records[i], id) && r.value == Resolve(records[i], parse)
  {
    match FindIndex(records, id)
    case None => current
    case Some(i) => Some(Resolve(records[i], parse))
  }

  /** `Load` publishes the normalised first match, and otherwise keeps the current project. */
  lemma LoadFirstMatch(current: Option<Record>, records: seq<Record>, id: string, parse: string -> Option<Value>, i: nat)
    requires i < |records| && Matches(records[i], id)
    requires forall j :: 0 <= j < i ==> !Matches(records[j], id)
    ensures Load(current, records, id, parse) == Some(Resolve(records[i], parse))
  {
  }


  lemma LoadNoMatch(current: Option<Record>, records: seq<Record>, id: string, parse: string -> Option<Value>)
    requires forall j :: 0 <= j < |records| ==> !Matches(records[j], id)
    ensures Load(current, records, id, parse) == current
  {
  }

  /** Every project `Load` publishes has the normalised shape, if the current one had. */
  lemma LoadNormalized(current: Option<Record>, records: seq<Record>, id: string, parse: string -> Option<Value>)
    requires current.Some? ==> Normalized(current.value)
    ensures var r := Load(current, records, id, parse); r.Some? ==> Normalized(r.value)
  {
  }

  /** What the page shows: the loading text, or the project with its two counters. */
  datatype Page = Loading | Details(project: Record, techCount: nat, featureCount: nat)

  function Render(project: Option<Record>): (page: Page)
    requires project.Some? ==> Normalized(project.value)
    ensures page.Loading? <==> project.None?
    ensures page.Details? ==> page.project == project.value
    ensures page.Details? ==> page.techCount == |project.value[TechStackKey].items|
    ensures page.Details? ==> page.featureCount == |project.value[FeaturesKey].items|
  {
    match project
    case None => Loading
    case Some(p) => Details(p, |p[TechStackKey].items|, |p[FeaturesKey].items|)
  }

  /** On first visit, with no record matching, the page keeps showing the loading text. */
  lemma FirstVisitNoMatch(records: seq<Record>, id: string, parse: string -> Option<Value>)
    requires forall j :: 0 <= j < |records| ==> !Matches(records[j], id)
    ensures Render(Load(None, records, id, parse)) == Loading
  {
  }

  /**
   * On first visit the page shows the first matching record, with counters equal to the
   * sizes of its normalised lists.
   */
  lemma FirstVisitMatch(records: seq<Record>, id: string, parse: string -> Option<Value>, i: nat)
    requires i < |records| && Matches(records[i], id)
    requires forall j :: 0 <= j < i ==> !Matches(records[j], id)
    ensures Render(Load(None, records, id, parse))
         == Details(Resolve(records[i], parse),
                    |NormalizeArray(Get(records[i], TechStackKey), parse)|,
                    |NormalizeArray(Get(records[i], FeaturesKey), parse)|)
  {
  }


  /**
   * A record stored with a numeric id 3 and its technologies as encoded text is found by the
   * route id "3"; its technologies become the decoded list and its missing link the default.
   */
  lemma NumericIdAndEncodedList(parse: string -> Option<Value>)
    requires parse("[\"React\",\"Node\"]") == Some(Array([Str("React"), Str("Node")]))
    ensures var stored := map["id" := Number(3), TechStackKey := Str("[\"React\",\"Node\"]")];
            var shown := Load(None, [stored], "3", parse);
            && shown.Some?
            && shown.value[TechStackKey] == Array([Str("React"), Str("Node")])
            && shown.value[FeaturesKey] == Array([])
            && shown.value[GithubKey] == Str(DefaultGithub)
  {
  }


  datatype Click = Intercepted | Proceeds

  /** `handleGithubClick`: a click on the literal "Private" link is stopped and a notice shown. */
  function GithubClick(project: Record): (c: Click)
    ensures c == Intercepted <==> Get(project, GithubKey) == Some(Str(PrivateMarker))
  {
    if Get(project, GithubKey) == Some(Str(PrivateMarker)) then Intercepted else Proceeds
  }

  /** For a published project the click is stopped exactly when the stored link was "Private". */
  lemma ResolvedClick(found: Record, parse: string -> Option<Value>)
    ensures GithubClick(Resolve(found, parse)) == Intercepted <==> Get(found, GithubKey) == Some(Str(PrivateMarker))
  {
  }


  datatype Icon = Globe | Layout | Cpu | Code | Package

  /** `TECH_ICONS`, including its `default` entry. */
  const TechIcons: map<string, Icon> := map[
    "React" := Globe,
    "Tailwind" := Layout,
    "Express" := Cpu,
    "Python" := Code,
    "Javascript" := Code,
    "HTML" := Code,
    "CSS" := Code,
    "default" := Package
  ]

  /** `TECH_ICONS[tech] || TECH_ICONS.default`; the property key is `String(tech)`. */
  function IconFor(tech: Value): (i: Icon)
    ensures ToJsString(tech) in TechIcons ==> i == TechIcons[ToJsString(tech)]
    ensures ToJsString(tech) !in TechIcons ==> i == Package
  {
    var key := ToJsString(tech);
    if key in TechIcons then TechIcons[key] else TechIcons["default"]
  }
}
