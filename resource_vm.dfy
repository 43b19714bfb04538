/**
 * The `isard_vm` resource: a persistent desktop kept in Terraform state.
 * Create and Read rewrite the plan or the state field by field from what the
 * server reports; Update stores the plan; Delete only reports a failure.
 */
module VmResource {
  import opened Wrappers
  import opened JsonValues
  import opened Transport
  import opened IsardClient
  import opened Terraform

  /** `vmResourceModel`. */
  datatype VmModel = VmModel(
    id: TfValue<string>, name: TfValue<string>, description: TfValue<string>,
    templateId: TfValue<string>, vcpus: TfValue<int>, memory: TfValue<real>)

  /**
   * The state a successful create writes: the plan with the new ID, and,
   * when the refresh read succeeded, the server's description if non-empty
   * and its vcpus and memory if positive.  A failed refresh is ignored.
   */
  function AfterCreate(plan: VmModel, desktopId: string, refresh: Outcome<Desktop>): (s: VmModel)
    ensures s.id == Known(desktopId)
    ensures s.name == plan.name && s.templateId == plan.templateId
    ensures !refresh.Ok? ==> s == plan.(id := Known(desktopId))
    ensures refresh.Ok? && refresh.value.description != "" ==> s.description == Known(refresh.value.description)
    ensures refresh.Ok? && refresh.value.description == "" ==> s.description == plan.description
    ensures refresh.Ok? && refresh.value.vcpus > 0 ==> s.vcpus == Known(refresh.value.vcpus)
    ensures refresh.Ok? && refresh.value.vcpus <= 0 ==> s.vcpus == plan.vcpus
    ensures refresh.Ok? && refresh.value.memory > 0.0 ==> s.memory == Known(refresh.value.memory)
    ensures refresh.Ok? && refresh.value.memory <= 0.0 ==> s.memory == plan.memory
  {
    var s := plan.(id := Known(desktopId));
    match refresh
    case Ok(d) =>
      s.(description := if d.description != "" then Known(d.description) else s.description,
         vcpus := if d.vcpus > 0 then Known(d.vcpus) else s.vcpus,
         memory := if d.memory > 0.0 then Known(d.memory) else s.memory)
    case _ => s
  }

  /**
   * The state a successful read writes: name, description and template
   * always from the server, vcpus and memory only when positive; the ID is
   * kept.
   */
  function AfterRead(state: VmModel, d: Desktop): (s: VmModel)
    ensures s.id == state.id
    ensures s.name == Known(d.name) && s.description == Known(d.description) && s.templateId == Known(d.templateId)
    ensures s.vcpus == if d.vcpus > 0 then Known(d.vcpus) else state.vcpus
    ensures s.memory == if d.memory > 0.0 then Known(d.memory) else state.memory
  {
    state.(name := Known(d.name), description := Known(d.description), templateId := Known(d.templateId),
           vcpus := if d.vcpus > 0 then Known(d.vcpus) else state.vcpus,
           memory := if d.memory > 0.0 then Known(d.memory) else state.memory)
  }

  /**
   * `Create`: hardware goes to the client only for known plan values; a
   * failed create reports an error and writes no state; otherwise the plan,
   * refreshed by a read of the new desktop, is stored.  `createReply` and
   * `refreshReply` are the server's answers; `posted` is the create body.
   */
  method Create(plan: VmModel, createReply: HttpResult, refreshReply: HttpResult, resp: StateResponse<VmModel>)
    returns (posted: map<string, Json>)
    modifies resp
    ensures IsDesktopPayload(posted, ValueString(plan.name), ValueString(plan.description),
                             ValueString(plan.templateId), KnownOption(plan.vcpus), KnownOption(plan.memory))
    ensures CreatedId(createReply).Err? ==>
              && resp.state == old(resp.state)
              && resp.diagnostics == old(resp.diagnostics) +
                   [ErrorDiagnostic("Error creando el persistent desktop", Cause(CreatedId(createReply).error))]
    ensures CreatedId(createReply).Ok? ==>
              && resp.diagnostics == old(resp.diagnostics)
              && resp.state == Some(AfterCreate(plan, CreatedId(createReply).value,
                                                GetDesktop(CreatedId(createReply).value, refreshReply)))
  {
    var vcpus: Option<int> := None;
    var memory: Option<real> := None;
    if !plan.vcpus.Null? && !plan.vcpus.Unknown? {
      vcpus := Some(plan.vcpus.value);
    }
    if !plan.memory.Null? && !plan.memory.Unknown? {
      memory := Some(plan.memory.value);
    }

    var created;
    created, posted := CreatePersistentDesktop(
      ValueString(plan.name), ValueString(plan.description), ValueString(plan.templateId),
      vcpus, memory, createReply);
    if !created.Ok? {
      resp.AddError("Error creando el persistent desktop", Cause(created.error));
      return;
    }

    var desktopId := created.value;
    var plan := plan.(id := Known(desktopId));
    var desktop := GetDesktop(desktopId, refreshReply);
    if desktop.Ok? {
      if desktop.value.description != "" {
        plan := plan.(description := Known(desktop.value.description));
      }
      if desktop.value.vcpus > 0 {
        plan := plan.(vcpus := Known(desktop.value.vcpus));
      }
      if desktop.value.memory > 0.0 {
        plan := plan.(memory := Known(desktop.value.memory));
      }
    }
    resp.Set(plan);
  }

  /**
   * `Read`: a desktop the server no longer has is removed from state with no
   * diagnostic; any other failure is reported; otherwise the state is
   * refreshed from the server.
   */
  method Read(state: VmModel, reply: HttpResult, resp: StateResponse<VmModel>)
    modifies resp
    ensures GetDesktop(ValueString(state.id), reply).NotFound? ==>
              resp.state == None && resp.diagnostics == old(resp.diagnostics)
    ensures GetDesktop(ValueString(state.id), reply).Err? ==>
              && resp.state == old(resp.state)
              && resp.diagnostics == old(resp.diagnostics) +
                   [ErrorDiagnostic("Error leyendo el desktop", Cause(GetDesktop(ValueString(state.id), reply).error))]
    ensures GetDesktop(ValueString(state.id), reply).Ok? ==>
              && resp.diagnostics == old(resp.diagnostics)
              && resp.state == Some(AfterRead(state, GetDesktop(ValueString(state.id), reply).value))
  {
    var desktop := GetDesktop(ValueString(state.id), reply);
    if desktop.NotFound? {
      resp.RemoveResource();
      return;
    }
    if desktop.Err? {
      resp.AddError("Error leyendo el desktop", Cause(desktop.error));
      return;
    }
    var state := state.(name := Known(desktop.value.name));
    state := state.(description := Known(desktop.value.description));
    state := state.(templateId := Known(desktop.value.templateId));
    if desktop.value.vcpus > 0 {
      state := state.(vcpus := Known(desktop.value.vcpus));
    }
    if desktop.value.memory > 0.0 {
      state := state.(memory := Known(desktop.value.memory));
    }
    resp.Set(state);
  }

  /** `Update`: the plan is stored as it is; nothing is sent to the server. */
  method Update(plan: VmModel, resp: StateResponse<VmModel>)
    modifies resp
    ensures resp.state == Some(plan)
    ensures resp.diagnostics == old(resp.diagnostics)
  {
    resp.Set(plan);
  }

  /** `Delete`: a failure is reported; success writes nothing (the framework drops the state). */
  method Delete(state: VmModel, reply: HttpResult, resp: StateResponse<VmModel>)
    modifies resp
    ensures DeleteDesktop(reply).Ok? ==> resp.state == old(resp.state) && resp.diagnostics == old(resp.diagnostics)
    ensures DeleteDesktop(reply).Err? ==>
              && resp.state == old(resp.state)
              && resp.diagnostics == old(resp.diagnostics) +
                   [ErrorDiagnostic("Error eliminando la máquina virtual", Cause(DeleteDesktop(reply).error))]
  {
    var deleted := DeleteDesktop(reply);
    if deleted.Err? {
      resp.AddError("Error eliminando la máquina virtual", Cause(deleted.error));
    }
  }

  /** Reading twice against an unchanged server stores the same state as reading once. */
  lemma ReadIdempotent(state: VmModel, d: Desktop)
    ensures AfterRead(AfterRead(state, d), d) == AfterRead(state, d)
  {
  }

  /** The refresh inside a create changes nothing a following read of the same desktop would store. */
  lemma CreateRefreshSubsumedByRead(plan: VmModel, desktopId: string, d: Desktop)
    ensures AfterRead(AfterCreate(plan, desktopId, Ok(d)), d) == AfterRead(plan.(id := Known(desktopId)), d)
  {
  }

  /** A desktop read back keeps the ID it was asked for, so a read never changes the state's ID. */
  lemma ReadKeepsId(state: VmModel, reply: HttpResult)
    requires state.id.Known?
    requires GetDesktop(state.id.value, reply).Ok?
    ensures AfterRead(state, GetDesktop(state.id.value, reply).value).id == state.id
    ensures GetDesktop(state.id.value, reply).value.id == state.id.value
  {
  }
}
