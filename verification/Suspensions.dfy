/** The durable suspension value shared by driver, session and resume planners. JSON encoding is the identity. */
module Suspensions {
  import opened Messages
  import opened Usages
  import opened Repair

  datatype EndStrategy = Early | Exhaustive

  datatype FinishReason = FinishStop | FinishToolUse | FinishLength | FinishError | FinishOther(text: string)

  /** A canonical permission request; `resourceValid` is CanonicalResource.Valid(). */
  datatype PermissionRequest = PermissionRequest(capability: string, action: string, resource: string, resourceValid: bool)

  datatype DeferredRequest = DeferredRequest(callId: string, request: PermissionRequest)

  datatype DeferralPayload =
    | PermissionBatch(version: int, required: seq<string>, preAllowed: seq<string>, requests: seq<DeferredRequest>)
    | OpaqueDeferral(bytes: string)

  datatype Deferral = Deferral(kind: string, payload: DeferralPayload)

  datatype ToolSuspension = ToolSuspension(
    version: int, suspensionId: string, handlerSuspension: bool,
    calls: seq<ToolUse>, executableIds: seq<string>,
    iteration: nat, usage: Usage, retryCounts: map<string, nat>, totalRetries: nat, validationRetries: nat,
    endStrategy: EndStrategy, fingerprint: string, lastFinishReason: FinishReason, deferral: Deferral)

  datatype SuspensionPayload =
    | ToolPayload(tool: ToolSuspension)
    | RecoveryPayload(version: int, calls: seq<PendingCall>)
    | Undecodable(bytes: string)

  datatype Suspension = Suspension(id: string, kind: string, frontierHash: string, payload: SuspensionPayload)

  datatype ResolutionAction = ResolutionInvalid | ResolutionApprove | ResolutionDeny | ResolutionExternalResult

  /** `overrideArgs` is None for absent arguments; results are already formatted text. */
  datatype ToolResolution = ToolResolution(callId: string, action: ResolutionAction, overrideArgs: Option<string>,
                                           result: Option<string>, reason: string)

  datatype ResumeRequest = ResumeRequest(suspensionId: string, resolutions: seq<ToolResolution>, prompt: Option<Message>)
}
