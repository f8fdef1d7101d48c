/** Docker accounting as values: the journal that load accepts, the labels that
    tie a resource to its intent, and the intent a create request is given. */
module DockerResources {
  import opened Wrappers

  const HOST_LABEL := "runner-manager.host"
  const ATTEMPT_LABEL := "runner-manager.attempt"
  const OPERATION_LABEL := "runner-manager.operation"
  const RETAIN_LABEL := "runner-manager.retain"
  const ANONYMOUS_LABEL := "com.docker.volume.anonymous"
  const SCHEMA: nat := 1
  const PENDING_ENGINE := "runner-manager-pending-engine"

  // ---------------------------------------------------------------------------
  // JSON and strings
  // ---------------------------------------------------------------------------

  datatype Json = Null | Scalar | Str(text: string) | Arr(items: seq<Json>) | Obj(fields: map<string, Json>)

  function Field(v: Json, key: string): Option<Json> {
    if v.Obj? && key in v.fields then Some(v.fields[key]) else None
  }

  function Text(v: Option<Json>): Option<string> {
    if v.Some? && v.value.Str? then Some(v.value.text) else None
  }

  function Items(v: Option<Json>): Option<seq<Json>> {
    if v.Some? && v.value.Arr? then Some(v.value.items) else None
  }

  function OrNull(v: Option<Json>): Json {
    if v.Some? then v.value else Null
  }

  /** The pieces of a string between separators; there is always one. */
  function Split(s: string, c: char): (r: seq<string>)
    ensures r != []
  {
    if s == "" then [""]
    else
      var rest := Split(s[1..], c);
      if s[0] == c then [""] + rest else [[s[0]] + rest[0]] + rest[1..]
  }

  predicate EndsWith(s: string, suffix: string) {
    |suffix| <= |s| && s[|s| - |suffix|..] == suffix
  }

  predicate IsLowerHex(c: char) {
    '0' <= c <= '9' || 'a' <= c <= 'f'
  }

  predicate ValidId(s: string) {
    |s| == 64 && forall i :: 0 <= i < |s| ==> IsLowerHex(s[i])
  }

  /** A hyphenated lower-case UUID. */
  predicate ValidOperation(s: string) {
    |s| == 36 && forall i :: 0 <= i < |s| ==> if i == 8 || i == 13 || i == 18 || i == 23 then s[i] == '-' else IsLowerHex(s[i])
  }

  // ---------------------------------------------------------------------------
  // The journal
  // ---------------------------------------------------------------------------

  datatype Kind = Container | Volume | Network

  datatype Intent = Intent(
    id: string,
    kind: Kind,
    destinations: set<string>,
    inheritsVolumes: bool,
    settled: bool)

  datatype Resource = Resource(kind: Kind, id: string, created: string, operation: string, implicitVolume: bool)

  datatype Header = Header(schema: nat, host: string, attempt: string, upstream: string, engine: string, proxy: Option<nat>)

  function FindIntent(intents: seq<Intent>, id: string): Option<Intent> {
    if intents == [] then None else if intents[0].id == id then Some(intents[0]) else FindIntent(intents[1..], id)
  }

  predicate ValidHeader(h: Header, intents: seq<Intent>, resources: seq<Resource>) {
    && h.schema == SCHEMA && h.upstream != "" && h.upstream[0] == '/' && h.engine != ""
    && (h.engine == PENDING_ENGINE ==> intents == [] && resources == [] && h.proxy.None?)
    && (intents != [] ==> h.proxy.Some?)
  }

  /** Only a container has volume destinations or inherits volumes. */
  predicate Shaped(i: Intent) {
    i.kind.Container? || (i.destinations == {} && !i.inheritsVolumes)
  }

  predicate ValidIntent(i: Intent) {
    ValidOperation(i.id) && (forall d :: d in i.destinations ==> ValidId(d)) && Shaped(i)
  }

  predicate Fits(r: Resource, i: Intent) {
    if r.implicitVolume then r.kind.Volume? && i.kind.Container? && !i.inheritsVolumes else r.kind == i.kind
  }

  predicate ValidResource(intents: seq<Intent>, r: Resource) {
    && ValidId(r.id) && ValidOperation(r.operation)
    && var i := FindIntent(intents, r.operation); i.Some? && Fits(r, i.value)
  }

  predicate SameResource(r: Resource, s: Resource) {
    r.kind == s.kind && r.id == s.id
  }

  /** Everything load checks before it hands a journal out. */
  ghost predicate ValidJournal(h: Header, intents: seq<Intent>, resources: seq<Resource>) {
    && ValidHeader(h, intents, resources)
    && (forall i :: 0 <= i < |intents| ==> ValidIntent(intents[i]))
    && (forall i, j :: 0 <= i < j < |intents| ==> intents[i].id != intents[j].id)
    && (forall i :: 0 <= i < |resources| ==> ValidResource(intents, resources[i]))
    && (forall i, j :: 0 <= i < j < |resources| ==> !SameResource(resources[i], resources[j]))
  }

  lemma {:induction false} FindsMember(intents: seq<Intent>, k: nat)
    requires k < |intents| && forall i, j :: 0 <= i < j < |intents| ==> intents[i].id != intents[j].id
    ensures FindIntent(intents, intents[k].id) == Some(intents[k])
    decreases intents
  {
    if k > 0 {
      FindsMember(intents[1..], k - 1);
    }
  }

  lemma {:induction false} FindsStill(intents: seq<Intent>, more: seq<Intent>, id: string)
    requires FindIntent(intents, id).Some?
    ensures FindIntent(intents + more, id) == FindIntent(intents, id)
    decreases intents
  {
    assert (intents + more)[0] == intents[0] && (intents + more)[1..] == intents[1..] + more;
    if intents[0].id != id {
      FindsStill(intents[1..], more, id);
    }
  }

  /** A journal with one intent more is one load accepts exactly when the intent
      is shaped; everything else load checks is kept by a fresh intent. */
  lemma IntentKeepsJournal(h: Header, intents: seq<Intent>, resources: seq<Resource>, n: Intent)
    requires ValidJournal(h, intents, resources) && h.proxy.Some?
    requires ValidOperation(n.id) && (forall d :: d in n.destinations ==> ValidId(d))
    requires forall i :: 0 <= i < |intents| ==> intents[i].id != n.id
    ensures ValidJournal(h, intents + [n], resources) <==> Shaped(n)
  {
    var more := intents + [n];
    if Shaped(n) {
      assert forall i :: 0 <= i < |more| ==> ValidIntent(more[i]);
      forall i | 0 <= i < |resources| ensures ValidResource(more, resources[i]) {
        assert ValidResource(intents, resources[i]);
        FindsStill(intents, [n], resources[i].operation);
      }
    } else {
      assert !ValidIntent(more[|intents|]);
    }
  }

  predicate Known(resources: seq<Resource>, r: Resource) {
    exists i :: 0 <= i < |resources| && SameResource(resources[i], r)
  }

  function Added(resources: seq<Resource>, r: Resource): seq<Resource> {
    if Known(resources, r) then resources else resources + [r]
  }

  lemma ResourceKeepsJournal(h: Header, intents: seq<Intent>, resources: seq<Resource>, r: Resource)
    requires ValidJournal(h, intents, resources) && ValidResource(intents, r)
    ensures ValidJournal(h, intents, Added(resources, r)) && Known(Added(resources, r), r) && resources <= Added(resources, r)
  {
    var after := Added(resources, r);
    if !Known(resources, r) {
      assert SameResource(after[|resources|], r);
      forall i, j | 0 <= i < j < |after| ensures !SameResource(after[i], after[j]) {
        if j < |resources| {
          assert !SameResource(resources[i], resources[j]);
        } else {
          assert !SameResource(resources[i], r);
        }
      }
    }
  }

  // ---------------------------------------------------------------------------
  // Labels
  // ---------------------------------------------------------------------------

  function LabelsOf(v: Json, kind: Kind): Json {
    if kind.Container? then
      var config := Field(v, "Config");
      if config.Some? then OrNull(Field(config.value, "Labels")) else Null
    else OrNull(Field(v, "Labels"))
  }

  predicate Retained(labels: Json) {
    Text(Field(labels, RETAIN_LABEL)) == Some("true")
  }

  predicate MatchesLabels(h: Header, operation: string, labels: Json) {
    && !Retained(labels)
    && Text(Field(labels, HOST_LABEL)) == Some(h.host)
    && Text(Field(labels, ATTEMPT_LABEL)) == Some(h.attempt)
    && Text(Field(labels, OPERATION_LABEL)) == Some(operation)
  }

  /** What is to be retained is nobody's to remove. */
  lemma RetainedMatchesNoIntent(h: Header, operation: string, labels: map<string, Json>)
    requires RETAIN_LABEL in labels && labels[RETAIN_LABEL] == Str("true")
    ensures !MatchesLabels(h, operation, Obj(labels))
  {
  }

  /** The labels of a create request with the ownership labels beside them; None
      when one of those was already supplied. */
  function OwnedLabels(h: Header, operation: string, labels: map<string, Json>): Option<map<string, Json>> {
    if HOST_LABEL in labels || ATTEMPT_LABEL in labels || OPERATION_LABEL in labels then None
    else Some(labels[HOST_LABEL := Str(h.host)][ATTEMPT_LABEL := Str(h.attempt)][OPERATION_LABEL := Str(operation)])
  }

  lemma LabelNamesDiffer()
    ensures HOST_LABEL != ATTEMPT_LABEL && HOST_LABEL != OPERATION_LABEL && HOST_LABEL != RETAIN_LABEL
    ensures ATTEMPT_LABEL != OPERATION_LABEL && ATTEMPT_LABEL != RETAIN_LABEL && OPERATION_LABEL != RETAIN_LABEL
  {
    assert |HOST_LABEL| == 19 && |ATTEMPT_LABEL| == 22 && |OPERATION_LABEL| == 24 && |RETAIN_LABEL| == 21;
  }

  /** Owned labels name one host, one attempt and one operation, and no other. */
  lemma OwnedLabelsIdentify(h: Header, operation: string, labels: map<string, Json>, other: Header, op: string)
    requires !Retained(Obj(labels)) && OwnedLabels(h, operation, labels).Some?
    ensures MatchesLabels(other, op, Obj(OwnedLabels(h, operation, labels).value)) <==>
      other.host == h.host && other.attempt == h.attempt && op == operation
  {
    LabelNamesDiffer();
  }

  // ---------------------------------------------------------------------------
  // The intent of a create request
  // ---------------------------------------------------------------------------

  function KindOf(path: string): Option<Kind> {
    var endpoint := Split(path, '?')[0];
    if EndsWith(endpoint, "/containers/create") then Some(Container)
    else if EndsWith(endpoint, "/volumes/create") then Some(Volume)
    else if EndsWith(endpoint, "/networks/create") then Some(Network)
    else None
  }

  /** What follows the first separator, if there is one. */
  function AfterFirst(s: string, c: char): Option<string> {
    if s == "" then None else if s[0] == c then Some(s[1..]) else AfterFirst(s[1..], c)
  }

  function NamedIn(fields: seq<string>): Option<string> {
    if fields == [] then None
    else if "name=" <= fields[0] then Some(fields[0][|"name="|..])
    else NamedIn(fields[1..])
  }

  function QueryName(path: string): Option<string> {
    var query := AfterFirst(path, '?');
    if query.None? then None else NamedIn(Split(query.value, '&'))
  }

  predicate BindsBuildState(bind: Json) {
    bind.Str? && var parts := Split(bind.text, ':'); (if |parts| >= 2 then parts[1] else parts[0]) == "/var/lib/buildkit"
  }

  predicate MountsBuildState(mount: Json) {
    Text(Field(mount, "Target")) == Some("/var/lib/buildkit")
  }

  /** A builder keeps its state across jobs. */
  predicate IsBuilder(path: string, hostConfig: Json) {
    var name, mounts, binds := QueryName(path), Items(Field(hostConfig, "Mounts")), Items(Field(hostConfig, "Binds"));
    || (name.Some? && "buildx_buildkit_" <= name.value)
    || (mounts.Some? && exists i :: 0 <= i < |mounts.value| && MountsBuildState(mounts.value[i]))
    || (binds.Some? && exists i :: 0 <= i < |binds.value| && BindsBuildState(binds.value[i]))
  }

  /** Creations that stay out of the journal: a retained resource, a named volume,
      a builder. */
  predicate Persistent(kind: Kind, path: string, fields: map<string, Json>) {
    || Retained(OrNull(Field(Obj(fields), "Labels")))
    || (kind.Volume? && var name := Text(Field(Obj(fields), "Name")); name.Some? && name.value != "")
    || (kind.Container? && IsBuilder(path, OrNull(Field(Obj(fields), "HostConfig"))))
  }

  function BindTarget(bind: Json): Option<string> {
    if bind.Str? && |Split(bind.text, ':')| >= 2 then Some(Split(bind.text, ':')[1]) else None
  }

  predicate HasSource(mount: Json) {
    var source := Text(Field(mount, "Source"));
    source.Some? && source.value != ""
  }

  function MountTarget(mount: Json): Option<string> {
    if HasSource(mount) then Text(Field(mount, "Target")) else None
  }

  function Destinations(targets: seq<Option<string>>, digest: string -> string): set<string> {
    set i | 0 <= i < |targets| && targets[i].Some? :: digest(targets[i].value)
  }

  function Targets(items: seq<Json>, target: Json -> Option<string>): (r: seq<Option<string>>)
    ensures |r| == |items| && forall i :: 0 <= i < |r| ==> r[i] == target(items[i])
  {
    if items == [] then [] else [target(items[0])] + Targets(items[1..], target)
  }

  function Listed(hostConfig: Json, key: string): seq<Json> {
    var items := Items(Field(hostConfig, key));
    if items.Some? then items.value else []
  }

  /** A bind must be a string, and a mount with a source must say where it goes. */
  predicate BindRefused(bind: Json) {
    !bind.Str?
  }

  predicate MountRefused(mount: Json) {
    HasSource(mount) && MountTarget(mount).None?
  }

  predicate Readable(hostConfig: Json) {
    var binds, mounts := Listed(hostConfig, "Binds"), Listed(hostConfig, "Mounts");
    && (forall i :: 0 <= i < |binds| ==> !BindRefused(binds[i]))
    && (forall i :: 0 <= i < |mounts| ==> !MountRefused(mounts[i]))
  }

  function AllDestinations(hostConfig: Json, digest: string -> string): set<string> {
    Destinations(Targets(Listed(hostConfig, "Binds"), BindTarget), digest)
    + Destinations(Targets(Listed(hostConfig, "Mounts"), MountTarget), digest)
  }

  /** What becomes of a create request: refused, forwarded as it is, or forwarded
      with the given body once its intent is journalled. */
  datatype Intended = Refused | Untracked | Tracked(intent: Intent, body: Json)

  function CreationIntent(h: Header, path: string, body: Json, id: string, digest: string -> string): Intended {
    var kind := KindOf(path);
    if kind.None? then Untracked
    else if !body.Obj? then Refused
    else if Persistent(kind.value, path, body.fields) then Untracked
    else
      var labels := OrNull(Field(body, "Labels"));
      var hostConfig := OrNull(Field(body, "HostConfig"));
      if !labels.Null? && !labels.Obj? then Refused
      else
        var owned := OwnedLabels(h, id, if labels.Obj? then labels.fields else map[]);
        if owned.None? || !Readable(hostConfig) then Refused
        else
          Tracked(
            Intent(id, kind.value, AllDestinations(hostConfig, digest), Listed(hostConfig, "VolumesFrom") != [], false),
            Obj(body.fields["Labels" := Obj(owned.value)]))
  }

  /** The request says something about volumes, which only a container may. */
  predicate SpeaksOfVolumes(body: Json) {
    var hostConfig := OrNull(Field(body, "HostConfig"));
    || Listed(hostConfig, "VolumesFrom") != []
    || NamesATarget(Listed(hostConfig, "Binds"), BindTarget)
    || NamesATarget(Listed(hostConfig, "Mounts"), MountTarget)
  }

  lemma NoTargetsNoDestinations(targets: seq<Option<string>>, digest: string -> string)
    ensures Destinations(targets, digest) == {} <==> forall i :: 0 <= i < |targets| ==> targets[i].None?
  {
    forall i | 0 <= i < |targets| && targets[i].Some? ensures Destinations(targets, digest) != {} {
      assert digest(targets[i].value) in Destinations(targets, digest);
    }
  }

  predicate NamesATarget(items: seq<Json>, target: Json -> Option<string>) {
    exists i :: 0 <= i < |items| && target(items[i]).Some?
  }

  lemma TargetsHaveDestinations(items: seq<Json>, target: Json -> Option<string>, digest: string -> string)
    ensures Destinations(Targets(items, target), digest) != {} <==> NamesATarget(items, target)
  {
    var targets := Targets(items, target);
    NoTargetsNoDestinations(targets, digest);
    assert forall i :: 0 <= i < |targets| ==> targets[i] == target(items[i]);
  }

  lemma ShapedUnlessVolumes(h: Header, path: string, body: Json, id: string, digest: string -> string)
    requires CreationIntent(h, path, body, id, digest).Tracked?
    ensures Shaped(CreationIntent(h, path, body, id, digest).intent) <==> KindOf(path) == Some(Container) || !SpeaksOfVolumes(body)
  {
    var hostConfig := OrNull(Field(body, "HostConfig"));
    TargetsHaveDestinations(Listed(hostConfig, "Binds"), BindTarget, digest);
    TargetsHaveDestinations(Listed(hostConfig, "Mounts"), MountTarget, digest);
  }

  /** Journalling the intent of a create request keeps the journal loadable
      exactly when the request is for a container or does not speak of volumes. */
  lemma TrackedRequestKeepsJournal(h: Header, intents: seq<Intent>, resources: seq<Resource>, path: string, body: Json, id: string, digest: string -> string)
    requires ValidJournal(h, intents, resources) && h.proxy.Some?
    requires ValidOperation(id) && (forall s :: ValidId(digest(s))) && forall i :: 0 <= i < |intents| ==> intents[i].id != id
    requires CreationIntent(h, path, body, id, digest).Tracked?
    ensures ValidJournal(h, intents + [CreationIntent(h, path, body, id, digest).intent], resources) <==>
      KindOf(path) == Some(Container) || !SpeaksOfVolumes(body)
  {
    ShapedUnlessVolumes(h, path, body, id, digest);
    IntentKeepsJournal(h, intents, resources, CreationIntent(h, path, body, id, digest).intent);
  }

  /** A network request that speaks of volumes is tracked all the same. */
  lemma NetworkRequestIsTracked(h: Header, path: string, hostConfig: Json, id: string, digest: string -> string)
    requires KindOf(path) == Some(Network) && Readable(hostConfig)
    ensures CreationIntent(h, path, Obj(map["HostConfig" := hostConfig]), id, digest).Tracked?
  {
    var body := Obj(map["HostConfig" := hostConfig]);
    assert |"Labels"| != |"HostConfig"|;
    assert Field(body, "Labels") == None;
    assert !Retained(OrNull(Field(body, "Labels")));
    assert OwnedLabels(h, id, map[]).Some?;
  }

  lemma NetworkPath() returns (path: string)
    ensures path == "/networks/create" && KindOf(path) == Some(Network)
  {
    path := "/networks/create";
    NoSeparator(path, '?');
    assert |path| < |"/containers/create"|;
    assert path[|path| - |"/volumes/create"|] == 'n';
    assert "/volumes/create"[0] == '/';
  }

  /** So this one is journalled, and load refuses the journal from then on. */
  lemma NetworkWithVolumesSpoilsTheJournal(h: Header, path: string, id: string, digest: string -> string)
    requires ValidJournal(h, [], []) && h.proxy.Some? && ValidOperation(id) && forall s :: ValidId(digest(s))
    requires KindOf(path) == Some(Network)
    ensures var body := Obj(map["HostConfig" := Obj(map["VolumesFrom" := Arr([Str("c")])])]);
      var r := CreationIntent(h, path, body, id, digest);
      r.Tracked? && !ValidJournal(h, [] + [r.intent], [])
  {
    var hostConfig := Obj(map["VolumesFrom" := Arr([Str("c")])]);
    assert |"Binds"| != |"VolumesFrom"| && |"Mounts"| != |"VolumesFrom"|;
    assert Listed(hostConfig, "Binds") == [] && Listed(hostConfig, "Mounts") == [];
    assert Readable(hostConfig);
    NetworkRequestIsTracked(h, path, hostConfig, id, digest);
    TrackedRequestKeepsJournal(h, [], [], path, Obj(map["HostConfig" := hostConfig]), id, digest);
  }

  /** The body and the request that do it. */
  lemma CreatingANetworkCanSpoilTheJournal(h: Header, id: string, digest: string -> string) returns (path: string, body: Json)
    requires ValidJournal(h, [], []) && h.proxy.Some? && ValidOperation(id) && forall s :: ValidId(digest(s))
    ensures KindOf(path) == Some(Network)
    ensures var r := CreationIntent(h, path, body, id, digest); r.Tracked? && !ValidJournal(h, [] + [r.intent], [])
  {
    path := NetworkPath();
    body := Obj(map["HostConfig" := Obj(map["VolumesFrom" := Arr([Str("c")])])]);
    NetworkWithVolumesSpoilsTheJournal(h, path, id, digest);
  }

  lemma {:induction false} NoSeparator(s: string, c: char)
    requires c !in s
    ensures Split(s, c) == [s]
  {
    if s != "" {
      NoSeparator(s[1..], c);
      assert [s[0]] + s[1..] == s;
    }
  }

  /** The labels a tracked request carries match its own intent, and no other
      operation, attempt or host. */
  lemma TrackedLabelsIdentify(h: Header, path: string, body: Json, id: string, digest: string -> string, other: Header, op: string)
    requires CreationIntent(h, path, body, id, digest).Tracked?
    ensures var r := CreationIntent(h, path, body, id, digest);
      MatchesLabels(other, op, OrNull(Field(r.body, "Labels"))) <==>
        other.host == h.host && other.attempt == h.attempt && op == r.intent.id
  {
    var labels := OrNull(Field(body, "Labels"));
    var given := if labels.Obj? then labels.fields else map[];
    assert !Retained(Obj(given));
    OwnedLabelsIdentify(h, id, given, other, op);
  }
}
