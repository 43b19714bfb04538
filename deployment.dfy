/**
 * Deployments: the payload a deployment create sends, resolved from the
 * caller's override and the template's defaults, and the status rules of
 * every deployment call.
 */
module Deployment {
  import opened Wrappers
  import opened JsonValues
  import opened Transport

  const DefaultVcpus := 2
  const DefaultMemoryGb := 2
  const DefaultVideos: Json := JArr([JStr("default")])
  const DefaultInterfaces: seq<string> := ["default", "wireguard"]
  /** `{"vgpus": ["None"]}`, written into every hardware map. */
  const Reservables: Json := JObj(map["vgpus" := JArr([JStr("None")])])
  const DefaultImage: map<string, Json> := map["type" := JStr("user")]

  // ---------------------------------------------------------------------
  // The template, as the type assertions on the decoded template see it

  /**
   * The keys of a template's "hardware" object that resolution reads.  The
   * copied keys keep any JSON value (null included); `vcpus` and `memory`
   * are kept only when they are numbers.
   */
  datatype Hardware = Hardware(
    bootOrder: Option<Json>, diskBus: Option<Json>, disks: Option<Json>,
    floppies: Option<Json>, isos: Option<Json>,
    videos: Option<Json>, video: Option<Json>,
    vcpus: Option<real>, memory: Option<real>)

  /** A template's "hardware", "guest_properties" and "image", each present only when it is a JSON object. */
  datatype Template = Template(
    hardware: Option<Hardware>,
    guestProperties: Option<map<string, Json>>,
    image: Option<map<string, Json>>)

  function HardwareOf(h: map<string, Json>): Hardware {
    Hardware(Field(h, "boot_order"), Field(h, "disk_bus"), Field(h, "disks"),
             Field(h, "floppies"), Field(h, "isos"),
             Field(h, "videos"), Field(h, "video"),
             NumberField(h, "vcpus"), NumberField(h, "memory"))
  }

  /** The three map assertions on the decoded template. */
  function TemplateOf(m: map<string, Json>): Template {
    Template(
      match ObjectField(m, "hardware") case Some(h) => Some(HardwareOf(h)) case None => None,
      ObjectField(m, "guest_properties"),
      ObjectField(m, "image"))
  }

  // ---------------------------------------------------------------------
  // The caller's override and the resolved payload

  /**
   * What the caller of a deployment create passes.  `vcpus` and `memory`
   * are Go pointers (absent is not zero); `allowed` is passed through as
   * whatever JSON it marshals to.
   */
  datatype Override = Override(
    name: string, description: string, templateId: string, desktopName: string,
    visible: bool, allowed: Json,
    vcpus: Option<int>, memory: Option<real>,
    interfaces: seq<string>,
    guestProperties: map<string, Json>,
    image: map<string, Json>,
    userPermissions: seq<string>)

  datatype HardwarePayload = HardwarePayload(
    bootOrder: Option<Json>, diskBus: Option<Json>, disks: Option<Json>,
    floppies: Option<Json>, isos: Option<Json>,
    videos: Json, vcpus: int, memory: int,
    interfaces: seq<string>, reservables: Json)

  datatype Payload = Payload(
    name: string, description: string, templateId: string, desktopName: string,
    visible: bool, allowed: Json, userPermissions: seq<string>,
    hardware: HardwarePayload,
    guestProperties: map<string, Json>,
    image: map<string, Json>)

  /** A template without a "hardware" object reads like an empty one: every lookup misses. */
  const NoHardware := Hardware(None, None, None, None, None, None, None, None, None)

  /**
   * Template guest properties with the override laid over them: every
   * override key wins, every other template key survives, and nothing else
   * appears.
   */
  function MergeGuestProperties(template: map<string, Json>, override: map<string, Json>): (r: map<string, Json>)
    ensures r.Keys == template.Keys + override.Keys
    ensures forall k :: k in override ==> r[k] == override[k]
    ensures forall k :: k in template && k !in override ==> r[k] == template[k]
  {
    template + override
  }

  /** The hardware rules: template copies, then override, template or constant per field. */
  function ResolveHardware(o: Override, hw: Option<Hardware>): HardwarePayload {
    var th := hw.GetOr(NoHardware);
    HardwarePayload(
      th.bootOrder, th.diskBus, th.disks, th.floppies, th.isos,
      if th.videos.Some? then th.videos.value
      else if th.video.Some? then th.video.value
      else DefaultVideos,
      if o.vcpus.Some? then o.vcpus.value
      else if th.vcpus.Some? then Trunc(th.vcpus.value)
      else DefaultVcpus,
      if o.memory.Some? then Trunc(o.memory.value)
      else if th.memory.Some? then KibToGb(th.memory.value)
      else DefaultMemoryGb,
      if |o.interfaces| > 0 then o.interfaces else DefaultInterfaces,
      Reservables)
  }

  /** The resolution rules of the deployment create, field by field. */
  function Resolve(o: Override, t: Template): Payload {
    Payload(
      o.name, o.description, o.templateId, o.desktopName, o.visible, o.allowed,
      o.userPermissions,
      ResolveHardware(o, t.hardware),
      MergeGuestProperties(t.guestProperties.GetOr(map[]), o.guestProperties),
      if |o.image| > 0 then o.image
      else if t.image.Some? then t.image.value
      else DefaultImage)
  }

  // ---------------------------------------------------------------------
  // The wire shape of the payload

  function Strings(ss: seq<string>): (j: Json)
    ensures j.JArr? && |j.items| == |ss|
    ensures forall i :: 0 <= i < |ss| ==> j.items[i] == JStr(ss[i])
  {
    JArr(seq(|ss|, i requires 0 <= i < |ss| => JStr(ss[i])))
  }

  /** `if v, ok := ...; ok { m[k] = v }`. */
  function PutPresent(m: map<string, Json>, k: string, v: Option<Json>): (r: map<string, Json>)
    ensures k in r <==> k in m || v.Some?
    ensures v.Some? ==> r == m[k := v.value]
    ensures v.None? ==> r == m
  {
    if v.Some? then m[k := v.value] else m
  }

  /** The template keys copied verbatim when present. */
  function CopiedHardware(h: HardwarePayload): map<string, Json> {
    PutPresent(PutPresent(PutPresent(PutPresent(PutPresent(map[],
      "boot_order", h.bootOrder), "disk_bus", h.diskBus), "disks", h.disks),
      "floppies", h.floppies), "isos", h.isos)
  }

  function EncodeHardware(h: HardwarePayload): map<string, Json> {
    CopiedHardware(h)
      ["videos" := h.videos]
      ["vcpus" := JNum(h.vcpus as real)]
      ["memory" := JNum(h.memory as real)]
      ["interfaces" := Strings(h.interfaces)]
      ["reservables" := h.reservables]
  }

  /** The JSON object `json.Marshal` is given. */
  function Encode(p: Payload): map<string, Json> {
    map["name" := JStr(p.name), "description" := JStr(p.description),
        "template_id" := JStr(p.templateId), "desktop_name" := JStr(p.desktopName),
        "visible" := JBool(p.visible), "allowed" := p.allowed]
       ["user_permissions" := Strings(p.userPermissions)]
       ["hardware" := JObj(EncodeHardware(p.hardware))]
       ["guest_properties" := JObj(p.guestProperties)]
       ["image" := JObj(p.image)]
  }

  /** What the create POSTs for an override and the decoded template object. */
  function ResolvedJson(o: Override, template: map<string, Json>): map<string, Json> {
    Encode(Resolve(o, TemplateOf(template)))
  }

  // ---------------------------------------------------------------------
  // The create

  /**
   * Builds the payload the way the client does: a base map, then one
   * insertion per field.
   */
  method BuildPayload(o: Override, t: Template) returns (payload: map<string, Json>)
    ensures payload == Encode(Resolve(o, t))
  {
    payload := map["name" := JStr(o.name), "description" := JStr(o.description),
                   "template_id" := JStr(o.templateId), "desktop_name" := JStr(o.desktopName),
                   "visible" := JBool(o.visible), "allowed" := o.allowed];
    if |o.userPermissions| > 0 {
      payload := payload["user_permissions" := Strings(o.userPermissions)];
    } else {
      payload := payload["user_permissions" := JArr([])];
    }
    var hardware := BuildHardware(o, t.hardware);
    payload := payload["hardware" := JObj(hardware)];
    var finalGuestProps := CopyGuestProperties(t.guestProperties, o.guestProperties);
    payload := payload["guest_properties" := JObj(finalGuestProps)];
    if |o.image| > 0 {
      payload := payload["image" := JObj(o.image)];
    } else if t.image.Some? {
      payload := payload["image" := JObj(t.image.value)];
    } else {
      payload := payload["image" := JObj(DefaultImage)];
    }
  }

  /** The hardware map: template keys copied when present, then each resolved field inserted. */
  method BuildHardware(o: Override, templateHardware: Option<Hardware>) returns (hardware: map<string, Json>)
    ensures hardware == EncodeHardware(ResolveHardware(o, templateHardware))
  {
    var th := templateHardware.GetOr(NoHardware);
    ghost var r := ResolveHardware(o, templateHardware);
    hardware := map[];
    if th.bootOrder.Some? { hardware := hardware["boot_order" := th.bootOrder.value]; }
    if th.diskBus.Some? { hardware := hardware["disk_bus" := th.diskBus.value]; }
    if th.disks.Some? { hardware := hardware["disks" := th.disks.value]; }
    if th.floppies.Some? { hardware := hardware["floppies" := th.floppies.value]; }
    if th.isos.Some? { hardware := hardware["isos" := th.isos.value]; }
    ghost var copied := hardware;
    assert copied == CopiedHardware(r);

    if th.videos.Some? {
      hardware := hardware["videos" := th.videos.value];
    } else if th.video.Some? {
      hardware := hardware["videos" := th.video.value];
    } else {
      hardware := hardware["videos" := DefaultVideos];
    }
    assert hardware == copied["videos" := r.videos];
    ghost var withVideos := hardware;

    if o.vcpus.Some? {
      hardware := hardware["vcpus" := JNum(o.vcpus.value as real)];
    } else if th.vcpus.Some? {
      hardware := hardware["vcpus" := JNum(Trunc(th.vcpus.value) as real)];
    } else {
      hardware := hardware["vcpus" := JNum(DefaultVcpus as real)];
    }
    assert hardware == withVideos["vcpus" := JNum(r.vcpus as real)];
    ghost var withVcpus := hardware;

    if o.memory.Some? {
      hardware := hardware["memory" := JNum(Trunc(o.memory.value) as real)];
    } else if th.memory.Some? {
      hardware := hardware["memory" := JNum(KibToGb(th.memory.value) as real)];
    } else {
      hardware := hardware["memory" := JNum(DefaultMemoryGb as real)];
    }
    assert hardware == withVcpus["memory" := JNum(r.memory as real)];
    ghost var withMemory := hardware;

    if |o.interfaces| > 0 {
      hardware := hardware["interfaces" := Strings(o.interfaces)];
    } else {
      hardware := hardware["interfaces" := Strings(DefaultInterfaces)];
    }
    assert hardware == withMemory["interfaces" := Strings(r.interfaces)];
    hardware := hardware["reservables" := Reservables];
    assert EncodeHardware(r) == CopiedHardware(r)["videos" := r.videos]["vcpus" := JNum(r.vcpus as real)]
      ["memory" := JNum(r.memory as real)]["interfaces" := Strings(r.interfaces)]["reservables" := Reservables];
  }

  /** The two copy loops: every template guest property, then every override one on top. */
  method CopyGuestProperties(template: Option<map<string, Json>>, override: map<string, Json>)
    returns (finalGuestProps: map<string, Json>)
    ensures finalGuestProps == MergeGuestProperties(template.GetOr(map[]), override)
  {
    finalGuestProps := map[];
    if template.Some? {
      finalGuestProps := CopyEntries(finalGuestProps, template.value);
    }
    if |override| > 0 {
      finalGuestProps := CopyEntries(finalGuestProps, override);
    }
  }

  /** `for k, v := range source { target[k] = v }`: the source's entries replace the target's. */
  method CopyEntries(target: map<string, Json>, source: map<string, Json>) returns (result: map<string, Json>)
    ensures result == target + source
  {
    result := target;
    var pending := source.Keys;
    while pending != {}
      invariant pending <= source.Keys
      invariant result == target + map k | k in source.Keys - pending :: source[k]
      decreases pending
    {
      var k :| k in pending;
      result := result[k := source[k]];
      pending := pending - {k};
    }
    assert (map k | k in source.Keys :: source[k]) == source;
  }

  /**
   * `GetTemplateInfo`: any status but 200 is an error (a missing template
   * included), then the body must unmarshal into a map.
   */
  function GetTemplateInfo(r: HttpResult): (o: Outcome<map<string, Json>>)
    ensures !o.NotFound?
    ensures o.Ok? <==> r.Reply? && r.status == StatusOK && DecodeObject(r.json).Some?
    ensures o.Ok? ==> o.value == DecodeObject(r.json).value
    ensures r.Reply? && r.status != StatusOK ==> o == Err(Status(r.status, r.raw))
    ensures r.Reply? && r.status == StatusOK && DecodeObject(r.json).None? ==> o == Err(Malformed)
    ensures r.TransportFailed? ==> o == Err(Transport)
  {
    match r
    case TransportFailed => Err(Transport)
    case Reply(status, raw, json) =>
      if status != StatusOK then Err(Status(status, raw))
      else match DecodeObject(json)
        case Some(template) => Ok(template)
        case None => Err(Malformed)
  }

  /**
   * `CreateDeployment`: fetch the template, resolve and POST the payload,
   * read the new ID.  `templateReply` and `createReply` are the server's
   * answers to the two requests; `posted` is the body of the POST, `None`
   * when none is sent.
   */
  method CreateDeployment(o: Override, templateReply: HttpResult, createReply: HttpResult)
    returns (result: Outcome<string>, posted: Option<map<string, Json>>)
    ensures !result.NotFound?
    ensures GetTemplateInfo(templateReply).Err? ==>
              posted.None? && result == Err(TemplateFetch(GetTemplateInfo(templateReply).error))
    ensures GetTemplateInfo(templateReply).Ok? ==>
              posted == Some(ResolvedJson(o, GetTemplateInfo(templateReply).value)) &&
              result == CreatedId(createReply)
  {
    var template := GetTemplateInfo(templateReply);
    if template.Err? {
      return Err(TemplateFetch(template.error)), None;
    }
    var payload := BuildPayload(o, TemplateOf(template.value));
    posted := Some(payload);
    result := CreatedId(createReply);
  }

  // ---------------------------------------------------------------------
  // Reading a deployment

  /** The fields of `DeploymentInfo`, under their JSON keys. */
  datatype DeploymentInfo = DeploymentInfo(
    id: string, name: string, description: string, desktopName: string,
    visible: bool, templateId: string, allowed: map<string, Json>,
    totalDesktops: int, visibleDesktops: int, startedDesktops: int, creatingDesktops: int)

  /** A struct field of kind string, bool, map or int accepts that JSON kind or null, or may be missing. */
  predicate StringOk(m: map<string, Json>, k: string) { k !in m || m[k].JNull? || m[k].JStr? }
  predicate BoolOk(m: map<string, Json>, k: string) { k !in m || m[k].JNull? || m[k].JBool? }
  predicate MapOk(m: map<string, Json>, k: string) { k !in m || m[k].JNull? || m[k].JObj? }
  predicate IntOk(m: map<string, Json>, k: string) {
    k !in m || m[k].JNull? || (m[k].JNum? && m[k].n == m[k].n.Floor as real)
  }

  predicate InfoWellTyped(m: map<string, Json>) {
    && StringOk(m, "id") && StringOk(m, "name") && StringOk(m, "description")
    && StringOk(m, "desktop_name") && BoolOk(m, "visible") && StringOk(m, "template")
    && MapOk(m, "allowed")
    && IntOk(m, "totalDesktops") && IntOk(m, "visibleDesktops")
    && IntOk(m, "startedDesktops") && IntOk(m, "creatingDesktops")
  }

  function StringOr(m: map<string, Json>, k: string): string {
    if k in m && m[k].JStr? then m[k].s else ""
  }

  function IntOr(m: map<string, Json>, k: string): int {
    if k in m && m[k].JNum? then m[k].n.Floor else 0
  }

  /**
   * `json.Unmarshal` into `DeploymentInfo`: an object or null; a field of
   * the wrong kind is an error; a missing or null field keeps its zero value.
   */
  function DecodeDeploymentInfo(j: Json): (r: Option<DeploymentInfo>)
    ensures r.Some? <==> j.JNull? || (j.JObj? && InfoWellTyped(j.fields))
    ensures j.JNull? ==> r == Some(DeploymentInfo("", "", "", "", false, "", map[], 0, 0, 0, 0))
    ensures r.Some? && j.JObj? ==>
              var m := j.fields;
              && r.value.id == StringField(m, "id").GetOr("")
              && r.value.name == StringField(m, "name").GetOr("")
              && r.value.description == StringField(m, "description").GetOr("")
              && r.value.desktopName == StringField(m, "desktop_name").GetOr("")
              && r.value.visible == ("visible" in m && m["visible"] == JBool(true))
              && r.value.templateId == StringField(m, "template").GetOr("")
              && r.value.allowed == ObjectField(m, "allowed").GetOr(map[])
              && r.value.totalDesktops == (if NumberField(m, "totalDesktops").Some? then m["totalDesktops"].n as int else 0)
              && r.value.visibleDesktops == (if NumberField(m, "visibleDesktops").Some? then m["visibleDesktops"].n as int else 0)
              && r.value.startedDesktops == (if NumberField(m, "startedDesktops").Some? then m["startedDesktops"].n as int else 0)
              && r.value.creatingDesktops == (if NumberField(m, "creatingDesktops").Some? then m["creatingDesktops"].n as int else 0)
  {
    match j
    case JNull => Some(DeploymentInfo("", "", "", "", false, "", map[], 0, 0, 0, 0))
    case JObj(m) =>
      if !InfoWellTyped(m) then None
      else Some(DeploymentInfo(
        StringOr(m, "id"), StringOr(m, "name"), StringOr(m, "description"),
        StringOr(m, "desktop_name"),
        "visible" in m && m["visible"].JBool? && m["visible"].b,
        StringOr(m, "template"),
        if "allowed" in m && m["allowed"].JObj? then m["allowed"].fields else map[],
        IntOr(m, "totalDesktops"), IntOr(m, "visibleDesktops"),
        IntOr(m, "startedDesktops"), IntOr(m, "creatingDesktops")))
    case _ => None
  }

  /** `GetDeployment`: a 404 is `NotFound`, distinct from every other failure. */
  function GetDeployment(r: HttpResult): (o: Outcome<DeploymentInfo>)
    ensures o.NotFound? <==> r.Reply? && r.status == StatusNotFound
    ensures o.Ok? <==> r.Reply? && r.status == StatusOK && r.json.Some? && DecodeDeploymentInfo(r.json.value).Some?
    ensures o.Ok? ==> o.value == DecodeDeploymentInfo(r.json.value).value
    ensures r.Reply? && r.status != StatusOK && r.status != StatusNotFound ==> o == Err(Status(r.status, r.raw))
    ensures r.Reply? && r.status == StatusOK && (r.json.None? || DecodeDeploymentInfo(r.json.value).None?) ==>
              o == Err(Malformed)
    ensures r.TransportFailed? ==> o == Err(Transport)
  {
    match ReadReply(r)
    case NotFound => NotFound
    case Err(e) => Err(e)
    case Ok(json) =>
      match json
      case None => Err(Malformed)
      case Some(j) =>
        match DecodeDeploymentInfo(j)
        case Some(info) => Ok(info)
        case None => Err(Malformed)
  }

  /** `GetDeploymentInfo`: the same status rule, the body unmarshalled into a map. */
  function GetDeploymentInfo(r: HttpResult): (o: Outcome<map<string, Json>>)
    ensures o.NotFound? <==> r.Reply? && r.status == StatusNotFound
    ensures o.Ok? <==> r.Reply? && r.status == StatusOK && DecodeObject(r.json).Some?
    ensures o.Ok? ==> o.value == DecodeObject(r.json).value
    ensures r.Reply? && r.status != StatusOK && r.status != StatusNotFound ==> o == Err(Status(r.status, r.raw))
    ensures r.Reply? && r.status == StatusOK && DecodeObject(r.json).None? ==> o == Err(Malformed)
    ensures r.TransportFailed? ==> o == Err(Transport)
  {
    match ReadReply(r)
    case NotFound => NotFound
    case Err(e) => Err(e)
    case Ok(json) =>
      match DecodeObject(json)
      case Some(info) => Ok(info)
      case None => Err(Malformed)
  }

  // ---------------------------------------------------------------------
  // Changing a deployment

  /** `UpdateDeployment`: only 200 is success. */
  function UpdateDeployment(r: HttpResult): (o: Outcome<()>)
    ensures o.Ok? <==> r.Reply? && r.status == StatusOK
    ensures !o.NotFound?
  {
    Accept(r, {StatusOK})
  }

  /** `DeleteDeployment`: 200, 204 and 404 are success; deleting what is gone is not an error. */
  function DeleteDeployment(r: HttpResult): (o: Outcome<()>)
    ensures o.Ok? <==> r.Reply? && (r.status == StatusOK || r.status == StatusNoContent || r.status == StatusNotFound)
    ensures !o.NotFound?
  {
    Accept(r, {StatusOK, StatusNoContent, StatusNotFound})
  }

  /** `StartDeployment`: only 200 is success. */
  function StartDeployment(r: HttpResult): (o: Outcome<()>)
    ensures o.Ok? <==> r.Reply? && r.status == StatusOK
    ensures !o.NotFound?
  {
    Accept(r, {StatusOK})
  }

  /** `StopDeployment`: only 200 is success. */
  function StopDeployment(r: HttpResult): (o: Outcome<()>)
    ensures o.Ok? <==> r.Reply? && r.status == StatusOK
    ensures !o.NotFound?
  {
    Accept(r, {StatusOK})
  }
}
