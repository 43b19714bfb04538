/**
 * The parts of the Terraform plugin framework the provider's operations
 * touch: attribute values that may be null or unknown, error diagnostics,
 * and the response whose state and diagnostics an operation writes.
 */
module Terraform {
  import opened Wrappers
  import opened Transport

  /** A framework attribute value: null, unknown until apply, or known. */
  datatype TfValue<+T> = Null | Unknown | Known(value: T)

  /** `ValueString()`, `ValueInt64()`, `ValueFloat64()`: the value, or `zero` when null or unknown. */
  function ValueOr<T>(v: TfValue<T>, zero: T): (r: T)
    ensures v.Known? ==> r == v.value
    ensures !v.Known? ==> r == zero
  {
    if v.Known? then v.value else zero
  }

  function ValueString(v: TfValue<string>): string {
    ValueOr(v, "")
  }

  /** A Go pointer set only when `!v.IsNull() && !v.IsUnknown()`. */
  function KnownOption<T>(v: TfValue<T>): (r: Option<T>)
    ensures r.Some? <==> !v.Null? && !v.Unknown?
    ensures r.Some? ==> v == Known(r.value)
  {
    if v.Known? then Some(v.value) else None
  }

  /** A diagnostic's detail: a fixed message, or the client error it formats. */
  datatype Detail = Text(text: string) | Cause(error: Error)

  /** `AddError(summary, detail)`. */
  datatype Diagnostic = ErrorDiagnostic(summary: string, detail: Detail)

  /** A resource or data-source response: the state to store (`None` once removed) and the diagnostics. */
  class StateResponse<T> {
    var state: Option<T>
    var diagnostics: seq<Diagnostic>

    /** The framework hands an operation the prior state (none for a create). */
    constructor (prior: Option<T>)
      ensures state == prior && diagnostics == []
    {
      state := prior;
      diagnostics := [];
    }

    /** `resp.Diagnostics.AddError`. */
    method AddError(summary: string, detail: Detail)
      modifies this
      ensures diagnostics == old(diagnostics) + [ErrorDiagnostic(summary, detail)]
      ensures state == old(state)
    {
      diagnostics := diagnostics + [ErrorDiagnostic(summary, detail)];
    }

    /** `resp.State.Set`. */
    method Set(value: T)
      modifies this
      ensures state == Some(value)
      ensures diagnostics == old(diagnostics)
    {
      state := Some(value);
    }

    /** `resp.State.RemoveResource`. */
    method RemoveResource()
      modifies this
      ensures state == None
      ensures diagnostics == old(diagnostics)
    {
      state := None;
    }
  }
}
