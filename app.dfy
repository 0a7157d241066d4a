/** The launcher page: the app registry read from `apps.yaml`, the `launch`
    query parameter that switches to an app's page, and the list of cards that
    link to it. */
module Launcher {
  import opened Wrappers

  // ---------------------------------------------------------------------------
  // The registry
  // ---------------------------------------------------------------------------

  /** One entry of the `apps` list, as parsed from YAML. */
  type AppEntry = map<string, string>

  predicate HasRequiredKeys(app: AppEntry)
  {
    "id" in app && "name" in app && "page" in app
  }

  predicate WellFormedRegistry(apps: seq<AppEntry>)
  {
    forall i :: 0 <= i < |apps| ==> HasRequiredKeys(apps[i])
  }

  /** The value under the `apps` key: missing, YAML null, or a list. */
  datatype AppsField = AppsAbsent | AppsNull | AppsList(entries: seq<AppEntry>)

  /** The parsed `apps.yaml`: `EmptyDoc` for an empty or false-valued document
      (which `or {}` turns into an empty mapping), otherwise a mapping. */
  datatype ConfigDoc = EmptyDoc | Mapping(apps: AppsField)

  /** `ValueError` for an entry without one of the required keys, and the
      `TypeError` of iterating over `None` when the key holds YAML null. */
  datatype RegistryError = MissingRequiredKey | AppsNotIterable

  /** `load_registry`: an empty document, or one without an `apps` key, is an
      empty registry;
      a list is returned unchanged and in order exactly when every entry has
      `id`, `name` and `page`, and rejected otherwise. */
  method LoadRegistry(cfg: ConfigDoc) returns (r: Result<seq<AppEntry>, RegistryError>)
    ensures cfg.EmptyDoc? || cfg.apps.AppsAbsent? ==> r == Success([])
    ensures cfg.Mapping? && cfg.apps.AppsNull? ==> r == Failure(AppsNotIterable)
    ensures cfg.Mapping? && cfg.apps.AppsList? ==>
      if WellFormedRegistry(cfg.apps.entries) then r == Success(cfg.apps.entries)
      else r == Failure(MissingRequiredKey)
  {
    var field := if cfg.EmptyDoc? then AppsAbsent else cfg.apps;
    if field.AppsAbsent? {
      return Success([]);
    }
    if field.AppsNull? {
      return Failure(AppsNotIterable);
    }
    var apps := field.entries;
    for i := 0 to |apps|
      invariant forall j :: 0 <= j < i ==> HasRequiredKeys(apps[j])
    {
      if !HasRequiredKeys(apps[i]) {
        return Failure(MissingRequiredKey);
      }
    }
    return Success(apps);
  }

  // ---------------------------------------------------------------------------
  // Launching an app
  // ---------------------------------------------------------------------------

  /** The position of the first entry whose `id` is `id`, if any. */
  function FirstWithId(apps: seq<AppEntry>, id: string): (k: Option<nat>)
    requires WellFormedRegistry(apps)
    ensures k.Some? ==> k.value < |apps| && apps[k.value]["id"] == id
    ensures k.Some? ==> forall j :: 0 <= j < k.value ==> apps[j]["id"] != id
    ensures k.None? ==> forall j :: 0 <= j < |apps| ==> apps[j]["id"] != id
  {
    if apps == [] then None
    else if apps[0]["id"] == id then Some(0)
    else match FirstWithId(apps[1..], id)
      case None => None
      case Some(k) => Some(k + 1)
  }

  /** The `launch` query parameter, with `""` standing for a missing one
      (both are false in `if launch_id:`). */
  function LaunchParam(params: map<string, string>): string
  {
    if "launch" in params then params["launch"] else ""
  }

  /** What the page does next: render the launcher, rerun with the query
      parameters cleared, or switch to an app's page. */
  datatype Navigation = ShowLauncher | Rerun | SwitchPage(page: string)

  /** The navigation the `launch` parameter asks for. */
  function LaunchTarget(params: map<string, string>, apps: seq<AppEntry>): (nav: Navigation)
    requires WellFormedRegistry(apps)
    ensures nav == ShowLauncher <==> LaunchParam(params) == ""
    ensures nav == Rerun <==>
      LaunchParam(params) != "" && forall j :: 0 <= j < |apps| ==> apps[j]["id"] != LaunchParam(params)
    ensures nav.SwitchPage? ==>
      exists k :: 0 <= k < |apps| && apps[k]["id"] == LaunchParam(params) && nav.page == apps[k]["page"]
  {
    var id := LaunchParam(params);
    if id == "" then ShowLauncher
    else match FirstWithId(apps, id)
      case None => Rerun
      case Some(k) => SwitchPage(apps[k]["page"])
  }

  /** No `launch` parameter: the launcher renders. An id that no entry
      carries: rerun with nothing launched. */
  lemma LaunchTargetWithoutMatch(params: map<string, string>, apps: seq<AppEntry>)
    requires WellFormedRegistry(apps)
    ensures LaunchParam(params) == "" ==> LaunchTarget(params, apps) == ShowLauncher
    ensures LaunchParam(params) != "" && (forall j :: 0 <= j < |apps| ==> apps[j]["id"] != LaunchParam(params))
      ==> LaunchTarget(params, apps) == Rerun
  {
  }

  /** A known id switches to the page of the first entry, in registry order,
      that carries it. */
  lemma LaunchTargetFirstMatch(params: map<string, string>, apps: seq<AppEntry>, k: nat)
    requires WellFormedRegistry(apps)
    requires k < |apps| && apps[k]["id"] == LaunchParam(params) != ""
    requires forall j :: 0 <= j < k ==> apps[j]["id"] != apps[k]["id"]
    ensures LaunchTarget(params, apps) == SwitchPage(apps[k]["page"])
  {
  }

  /** `st.query_params`, changed in place by the launch handling. */
  class QueryParams {
    var params: map<string, string>

    constructor (params: map<string, string>)
      ensures this.params == params
    {
      this.params := params;
    }
  }

  /** The launch handling at the top of the launcher page: when a `launch`
      id is present the query parameters are cleared whether or not it is
      known; without one they are left alone. */
  method HandleLaunch(q: QueryParams, apps: seq<AppEntry>) returns (nav: Navigation)
    requires WellFormedRegistry(apps)
    modifies q
    ensures nav == LaunchTarget(old(q.params), apps)
    ensures q.params == if LaunchParam(old(q.params)) == "" then old(q.params) else map[]
  {
    var launchId := LaunchParam(q.params);
    if launchId == "" {
      return ShowLauncher;
    }
    var target := FirstWithId(apps, launchId);
    if target.None? {
      q.params := map[];
      return Rerun;
    }
    q.params := map[];
    return SwitchPage(apps[target.value]["page"]);
  }

  // ---------------------------------------------------------------------------
  // The cards
  // ---------------------------------------------------------------------------

  /** The files next to the app, by path relative to its directory; the empty
      path is that directory itself. */
  datatype FsNode = Directory | RegularFile(content: seq<bv8>)
  type FileTree = map<string, FsNode>

  /** What the path `ROOT / path` names, if anything. */
  function Resolve(fs: FileTree, path: string): Option<FsNode>
  {
    if path == "" then Some(Directory) else if path in fs then Some(fs[path]) else None
  }

  /** The icon slot of a card: empty, or an image holding the icon's bytes
      (embedded as base64, which is empty exactly when the bytes are). */
  datatype IconSlot = NoIcon | Img(svg: seq<bv8>)

  /** One card: the link it opens and the name it shows. */
  datatype Card = Card(href: string, name: string, icon: IconSlot)

  /** The card link for an app id. */
  function LaunchHref(id: string): string
  {
    "./?launch=" + id
  }

  /** Reading a path that names a directory. */
  datatype CardError = IsADirectory(path: string)

  /** `app.get("icon", "")`. */
  function IconPath(app: AppEntry): string
  {
    if "icon" in app then app["icon"] else ""
  }

  /** The icon lookup as written: the path is `ROOT / app.get("icon", "")`,
      read whenever it exists; an icon that is missing from the entry makes
      the path `ROOT` itself, which exists and cannot be read as a file. */
  function IconAsWritten(app: AppEntry, fs: FileTree): (r: Result<IconSlot, CardError>)
    ensures r.Failure? <==> Resolve(fs, IconPath(app)) == Some(Directory)
    ensures r.Success? ==> r.value == Icon(app, fs)
  {
    match Resolve(fs, IconPath(app))
    case None => Success(NoIcon)
    case Some(Directory) => Failure(IsADirectory(IconPath(app)))
    case Some(RegularFile(bytes)) => Success(if bytes == [] then NoIcon else Img(bytes))
  }

  /** The card loop as written: the first entry whose icon read fails stops
      the whole page. */
  function CardsAsWritten(apps: seq<AppEntry>, fs: FileTree): (r: Result<seq<Card>, CardError>)
    requires WellFormedRegistry(apps)
    ensures r.Success? ==> |r.value| == |apps|
    ensures r.Failure? ==> exists i :: 0 <= i < |apps| && r.error == IsADirectory(IconPath(apps[i]))
  {
    if apps == [] then Success([])
    else match IconAsWritten(apps[0], fs)
      case Failure(e) => Failure(e)
      case Success(icon) =>
        match CardsAsWritten(apps[1..], fs)
        case Failure(e) => Failure(e)
        case Success(rest) => Success([Card(LaunchHref(apps[0]["id"]), apps[0]["name"], icon)] + rest)
  }

  /** The icon as the optional `icon` key intends: an image when the entry
      names a regular file with content, an empty slot otherwise. */
  function Icon(app: AppEntry, fs: FileTree): (slot: IconSlot)
    ensures slot.Img? <==> IconPath(app) in fs && fs[IconPath(app)].RegularFile?
                           && fs[IconPath(app)].content != [] && IconPath(app) != ""
    ensures slot.Img? ==> slot.svg == fs[IconPath(app)].content
  {
    match Resolve(fs, IconPath(app))
    case Some(RegularFile(bytes)) => if bytes == [] then NoIcon else Img(bytes)
    case _ => NoIcon
  }

  /** The card of one app. */
  function CardOf(app: AppEntry, fs: FileTree): Card
    requires HasRequiredKeys(app)
  {
    Card(LaunchHref(app["id"]), app["name"], Icon(app, fs))
  }

  /** The card list with the icon made optional: one card per registry entry,
      in registry order, each linking to `./?launch=<id>` and showing the
      entry's name. */
  method BuildCards(apps: seq<AppEntry>, fs: FileTree) returns (cards: seq<Card>)
    requires WellFormedRegistry(apps)
    ensures |cards| == |apps|
    ensures forall i :: 0 <= i < |apps| ==>
      cards[i].href == "./?launch=" + apps[i]["id"] && cards[i].name == apps[i]["name"]
    ensures forall i :: 0 <= i < |apps| ==> cards[i].icon == Icon(apps[i], fs)
  {
    cards := [];
    for i := 0 to |apps|
      invariant |cards| == i
      invariant forall j :: 0 <= j < i ==> cards[j] == CardOf(apps[j], fs)
    {
      cards := cards + [CardOf(apps[i], fs)];
    }
  }

  /** The page as written fails exactly when some entry's icon path names a
      directory; in particular whenever an entry has no `icon` key. */
  lemma {:induction false} CardsAsWrittenFailsIffDirectoryIcon(apps: seq<AppEntry>, fs: FileTree)
    requires WellFormedRegistry(apps)
    ensures CardsAsWritten(apps, fs).Failure? <==>
      exists i :: 0 <= i < |apps| && Resolve(fs, IconPath(apps[i])) == Some(Directory)
  {
    if apps != [] {
      CardsAsWrittenFailsIffDirectoryIcon(apps[1..], fs);
      if Resolve(fs, IconPath(apps[0])) != Some(Directory) &&
         exists i :: 0 <= i < |apps| && Resolve(fs, IconPath(apps[i])) == Some(Directory)
      {
        var i :| 0 <= i < |apps| && Resolve(fs, IconPath(apps[i])) == Some(Directory);
        assert apps[1..][i - 1] == apps[i];
      }
    }
  }

  /** An entry without an icon, which the registry allows, breaks the page as
      written. */
  lemma IconlessEntryBreaksLauncher(apps: seq<AppEntry>, fs: FileTree, k: nat)
    requires WellFormedRegistry(apps)
    requires k < |apps| && "icon" !in apps[k]
    ensures CardsAsWritten(apps, fs).Failure?
  {
    CardsAsWrittenFailsIffDirectoryIcon(apps, fs);
    assert Resolve(fs, IconPath(apps[k])) == Some(Directory);
  }

  /** Where the page as written does render, it renders exactly the cards of
      the corrected list. */
  lemma {:induction false} CardsAsWrittenAgreeWhenTheyRender(apps: seq<AppEntry>, fs: FileTree)
    requires WellFormedRegistry(apps)
    requires CardsAsWritten(apps, fs).Success?
    ensures |CardsAsWritten(apps, fs).value| == |apps|
    ensures forall i :: 0 <= i < |apps| ==> CardsAsWritten(apps, fs).value[i] == CardOf(apps[i], fs)
  {
    if apps != [] {
      CardsAsWrittenAgreeWhenTheyRender(apps[1..], fs);
      var cards := CardsAsWritten(apps, fs).value;
      var rest := CardsAsWritten(apps[1..], fs).value;
      assert cards == [CardOf(apps[0], fs)] + rest;
      forall i | 0 <= i < |apps| ensures cards[i] == CardOf(apps[i], fs) {
        if i > 0 {
          assert cards[i] == rest[i - 1] && apps[1..][i - 1] == apps[i];
        }
      }
    }
  }

  /** A `launch` parameter equal to a card's id switches to that card's page,
      when the id is not empty and no earlier entry carries it; with a
      repeated id, the first entry carrying it wins. (Loading the card's link
      runs the password gate first; the gate is not part of this lemma.) */
  lemma CardLinkLaunchesItsApp(apps: seq<AppEntry>, k: nat)
    requires WellFormedRegistry(apps)
    requires k < |apps| && apps[k]["id"] != ""
    requires forall j :: 0 <= j < k ==> apps[j]["id"] != apps[k]["id"]
    ensures LaunchTarget(map["launch" := apps[k]["id"]], apps) == SwitchPage(apps[k]["page"])
  {
  }

  /** A card whose id is empty links to `./?launch=`, which launches nothing:
      the launcher renders again. */
  lemma EmptyIdLaunchesNothing(apps: seq<AppEntry>)
    requires WellFormedRegistry(apps)
    ensures LaunchTarget(map["launch" := ""], apps) == ShowLauncher
  {
  }
}
