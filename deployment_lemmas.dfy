/**
 * What a deployment create sends, stated over the decoded template object
 * `m` and the override `o`: the precedence rule of every resolved field.
 */
module DeploymentLemmas {
  import opened Wrappers
  import opened JsonValues
  import opened Transport
  import opened Deployment

  /** The "hardware" object of what is POSTed. */
  function PostedHardware(o: Override, m: map<string, Json>): map<string, Json> {
    EncodeHardware(ResolveHardware(o, TemplateOf(m).hardware))
  }

  lemma PostedShape(o: Override, m: map<string, Json>)
    ensures "hardware" in ResolvedJson(o, m) && ResolvedJson(o, m)["hardware"] == JObj(PostedHardware(o, m))
    ensures ResolvedJson(o, m).Keys ==
              {"name", "description", "template_id", "desktop_name", "visible", "allowed",
               "user_permissions", "hardware", "guest_properties", "image"}
  {
  }

  /** videos: the template's "videos", else its "video", else `["default"]`; always present. */
  lemma VideosRule(o: Override, m: map<string, Json>)
    ensures "videos" in PostedHardware(o, m)
    ensures var hw := ObjectField(m, "hardware");
            var v := PostedHardware(o, m)["videos"];
            && (hw.Some? && "videos" in hw.value ==> v == hw.value["videos"])
            && (hw.Some? && "videos" !in hw.value && "video" in hw.value ==> v == hw.value["video"])
            && (hw.None? || ("videos" !in hw.value && "video" !in hw.value) ==> v == JArr([JStr("default")]))
  {
  }

  /** The fallback is a non-empty list, but a template's own list is copied as it is, even when empty. */
  lemma TemplateVideosCopiedEvenWhenEmpty(o: Override)
    ensures var m := map["hardware" := JObj(map["videos" := JArr([])])];
            PostedHardware(o, m)["videos"] == JArr([])
  {
  }

  /** vcpus: the override, else the template's number truncated, else 2. */
  lemma VcpusRule(o: Override, m: map<string, Json>)
    ensures "vcpus" in PostedHardware(o, m)
    ensures var hw := ObjectField(m, "hardware");
            var v := PostedHardware(o, m)["vcpus"];
            && (o.vcpus.Some? ==> v == JNum(o.vcpus.value as real))
            && (o.vcpus.None? && hw.Some? && NumberField(hw.value, "vcpus").Some? ==>
                  v == JNum(Trunc(hw.value["vcpus"].n) as real))
            && (o.vcpus.None? && (hw.None? || NumberField(hw.value, "vcpus").None?) ==> v == JNum(2.0))
  {
  }

  /** memory: the override truncated, else the template's KiB as whole GB, else 2. */
  lemma MemoryRule(o: Override, m: map<string, Json>)
    ensures "memory" in PostedHardware(o, m)
    ensures var hw := ObjectField(m, "hardware");
            var v := PostedHardware(o, m)["memory"];
            && (o.memory.Some? ==> v == JNum(Trunc(o.memory.value) as real))
            && (o.memory.None? && hw.Some? && NumberField(hw.value, "memory").Some? ==>
                  v == JNum(KibToGb(hw.value["memory"].n) as real))
            && (o.memory.None? && (hw.None? || NumberField(hw.value, "memory").None?) ==> v == JNum(2.0))
  {
  }

  /** A template of 4194304 KiB and no override gives 4 GB. */
  lemma MemoryFromTemplateKib(o: Override, kib: nat)
    requires o.memory.None?
    ensures var m := map["hardware" := JObj(map["memory" := JNum(kib as real)])];
            PostedHardware(o, m)["memory"] == JNum((kib / 1048576) as real)
    ensures PostedHardware(o, map["hardware" := JObj(map["memory" := JNum(4194304.0)])])["memory"] == JNum(4.0)
  {
    KibToGbWhole(kib);
    KibToGbWhole(4194304);
  }

  /** interfaces: the override when non-empty, else `["default", "wireguard"]`; never the template's. */
  lemma InterfacesIgnoreTemplate(o: Override, m1: map<string, Json>, m2: map<string, Json>)
    ensures "interfaces" in PostedHardware(o, m1)
    ensures PostedHardware(o, m1)["interfaces"] == PostedHardware(o, m2)["interfaces"]
    ensures PostedHardware(o, m1)["interfaces"] ==
              if |o.interfaces| > 0 then Strings(o.interfaces) else Strings(["default", "wireguard"])
  {
  }

  /** reservables: always `{"vgpus": ["None"]}`, whatever the template or the override hold. */
  lemma ReservablesFixed(o1: Override, m1: map<string, Json>, o2: Override, m2: map<string, Json>)
    ensures "reservables" in PostedHardware(o1, m1)
    ensures PostedHardware(o1, m1)["reservables"] == PostedHardware(o2, m2)["reservables"]
    ensures PostedHardware(o1, m1)["reservables"] == JObj(map["vgpus" := JArr([JStr("None")])])
  {
  }

  /** The copied keys appear exactly when the template's hardware has them, with their value. */
  lemma CopiedHardwareKeys(o: Override, m: map<string, Json>, k: string)
    requires k in {"boot_order", "disk_bus", "disks", "floppies", "isos"}
    ensures var hw := ObjectField(m, "hardware");
            && (k in PostedHardware(o, m) <==> hw.Some? && k in hw.value)
            && (k in PostedHardware(o, m) ==> PostedHardware(o, m)[k] == hw.value[k])
  {
  }

  /** A template without a hardware object does not stop resolution: every field falls back. */
  lemma NoTemplateHardware(o: Override, m: map<string, Json>)
    requires ObjectField(m, "hardware").None?
    ensures PostedHardware(o, m).Keys == {"videos", "vcpus", "memory", "interfaces", "reservables"}
    ensures PostedHardware(o, m)["videos"] == JArr([JStr("default")])
    ensures PostedHardware(o, m)["vcpus"] == JNum(if o.vcpus.Some? then o.vcpus.value as real else 2.0)
    ensures PostedHardware(o, m)["memory"] == JNum(if o.memory.Some? then Trunc(o.memory.value) as real else 2.0)
  {
  }

  /** user_permissions: always present, the caller's list, `[]` when none is given. */
  lemma UserPermissionsRule(o: Override, m: map<string, Json>)
    ensures "user_permissions" in ResolvedJson(o, m)
    ensures ResolvedJson(o, m)["user_permissions"] == Strings(o.userPermissions)
    ensures o.userPermissions == [] ==> ResolvedJson(o, m)["user_permissions"] == JArr([])
  {
  }

  /** name, description, template_id, desktop_name, visible and allowed come from the caller only. */
  lemma PassThroughFields(o: Override, m: map<string, Json>)
    ensures var p := ResolvedJson(o, m);
            && p["name"] == JStr(o.name) && p["description"] == JStr(o.description)
            && p["template_id"] == JStr(o.templateId) && p["desktop_name"] == JStr(o.desktopName)
            && p["visible"] == JBool(o.visible) && p["allowed"] == o.allowed
  {
  }

  /** guest_properties: override keys win, other template keys survive, no other key appears. */
  lemma GuestPropertiesRule(o: Override, m: map<string, Json>)
    ensures var tg := ObjectField(m, "guest_properties").GetOr(map[]);
            var g := ResolvedJson(o, m)["guest_properties"];
            && g.JObj?
            && g.fields.Keys == tg.Keys + o.guestProperties.Keys
            && (forall k :: k in o.guestProperties ==> g.fields[k] == o.guestProperties[k])
            && (forall k :: k in tg && k !in o.guestProperties ==> g.fields[k] == tg[k])
  {
  }

  /** The merge example: `{"a":"1","b":"2"}` under `{"b":"9","c":"3"}` is `{"a":"1","b":"9","c":"3"}`. */
  lemma GuestPropertiesExample()
    ensures MergeGuestProperties(map["a" := JStr("1"), "b" := JStr("2")], map["b" := JStr("9"), "c" := JStr("3")])
            == map["a" := JStr("1"), "b" := JStr("9"), "c" := JStr("3")]
  {
  }

  /** image: the override when non-empty, else the template's image object (even `{}`), else `{"type":"user"}`. */
  lemma ImageRule(o: Override, m: map<string, Json>)
    ensures var ti := ObjectField(m, "image");
            var img := ResolvedJson(o, m)["image"];
            && (|o.image| > 0 ==> img == JObj(o.image))
            && (|o.image| == 0 && ti.Some? ==> img == JObj(ti.value))
            && (|o.image| == 0 && ti.None? ==> img == JObj(map["type" := JStr("user")]))
  {
  }

  /** A failed or refused template lookup posts nothing and fails the create. */
  lemma TemplateFailureStopsCreate(r: HttpResult)
    requires r.TransportFailed? || (r.Reply? && r.status != 200)
    ensures GetTemplateInfo(r).Err?
  {
  }

  /** A read distinguishes a vanished deployment (404) from a failing server by outcome, not text. */
  lemma ReadDistinguishesNotFound(raw: string, json: Option<Json>)
    ensures GetDeployment(Reply(404, raw, json)) == NotFound
    ensures GetDeployment(Reply(500, raw, json)) == Err(Status(500, raw))
    ensures GetDeploymentInfo(Reply(404, raw, json)) == NotFound
    ensures GetDeploymentInfo(Reply(500, raw, json)) == Err(Status(500, raw))
  {
  }

  /** Deleting a deployment the server no longer has succeeds: the entity the read reports gone deletes cleanly. */
  lemma DeleteIdempotent(r: HttpResult)
    requires GetDeployment(r).NotFound?
    ensures DeleteDeployment(r).Ok?
  {
  }
}
