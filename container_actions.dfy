/**
 * The start, stop, restart and delete handlers of the containers page
 * (web/src/app/containers/containers.tsx). The HTTP request is not
 * modelled: how it settles is a parameter, and so is the list the node
 * reports when the page refetches it.
 */
module ContainerActions {
  import opened Wrappers
  import ContainerRows
  import PortLinks

  /** The JSON of an API error, `{ errors: { body } }`; None when `errors.body` is absent. */
  datatype ErrorBody = ErrorBody(errorsBody: Option<string>)

  /**
   * A `fetch` response: `ok` for a 2xx status, and what `response.json()`
   * gives, None when the body is not JSON and the call rejects. A `fetch`
   * that itself rejects (a network failure) has the same effect as
   * `FetchResponse(false, None)`: the handler ends with no toast and no refetch.
   */
  datatype FetchResponse = FetchResponse(ok: bool, json: Option<ErrorBody>)

  /**
   * How `await axios(...)` settles: it resolves, or throws an axios error
   * (with the response data, when a response arrived), or throws anything else.
   */
  datatype AxiosOutcome = Resolved | AxiosError(responseData: Option<ErrorBody>) | OtherError

  datatype ToastVariant = DefaultToast | DestructiveToast

  /** A toast's description: a message, an error payload shown as is, or `undefined`. */
  datatype Description = Message(text: string) | Payload(data: ErrorBody) | Undefined

  datatype Toast = Toast(variant: ToastVariant, title: string, description: Description)

  /** A request the page sends: `POST /nodes/{nodeId}/containers/{verb}` with body `{ id }`. */
  datatype Request = Request(path: string, id: string)

  /** What a handler does once its request has settled: refetch the list or not, and the toast it shows. */
  datatype Effect = Effect(refetch: bool, toast: Option<Toast>)

  function SuccessToast(message: string): Toast
  {
    Toast(DefaultToast, "Success!", Message(message))
  }

  /**
   * handleStartContainer after the request: on success, refetch and a
   * success toast; on an axios error, a failure toast carrying the response
   * data as it is; on any other error, nothing.
   */
  function StartEffect(outcome: AxiosOutcome): (e: Effect)
    ensures e.refetch <==> outcome == Resolved
    ensures e.toast.None? <==> outcome == OtherError
    ensures outcome == Resolved ==> e.toast == Some(SuccessToast("Container started."))
    ensures outcome.AxiosError? ==>
              e.toast.value.variant == DestructiveToast && e.toast.value.title == "Failed" &&
              e.toast.value.description == (if outcome.responseData.Some? then Payload(outcome.responseData.value) else Undefined)
  {
    match outcome
    case Resolved => Effect(true, Some(SuccessToast("Container started.")))
    case AxiosError(data) =>
      var description := if data.Some? then Payload(data.value) else Undefined;
      Effect(false, Some(Toast(DestructiveToast, "Failed", description)))
    case OtherError => Effect(false, None)
  }

  /**
   * handleStopContainer and handleRestartContainer after the request: on a
   * 2xx response, refetch and a success toast; otherwise a failure toast
   * whose description is the response's `errors.body` (`undefined` when
   * missing), and no refetch; if the error body is not JSON, nothing.
   */
  function FetchEffect(response: FetchResponse, successMessage: string): (e: Effect)
    ensures e.refetch <==> response.ok
    ensures e.toast.None? <==> !response.ok && response.json.None?
    ensures response.ok ==> e.toast == Some(SuccessToast(successMessage))
    ensures !response.ok && response.json.Some? ==>
              e.toast.value.variant == DestructiveToast && e.toast.value.title == "Failed" &&
              e.toast.value.description ==
                (if response.json.value.errorsBody.Some? then Message(response.json.value.errorsBody.value) else Undefined)
  {
    if !response.ok then
      match response.json
      case None => Effect(false, None)
      case Some(r) =>
        var description := if r.errorsBody.Some? then Message(r.errorsBody.value) else Undefined;
        Effect(false, Some(Toast(DestructiveToast, "Failed", description)))
    else Effect(true, Some(SuccessToast(successMessage)))
  }

  /** The path of a container action on a node. */
  function ActionPath(nodeId: string, verb: string): string
  {
    "/nodes/" + nodeId + "/containers/" + verb
  }

  /**
   * The state of the containers page: the list it last fetched
   * (`containers?.items`), the requests sent, the toasts shown, and the
   * delete dialog with the container it is for.
   */
  class ContainersPage {
    const nodeId: string
    var containers: Option<seq<ContainerRows.Container>>
    var requests: seq<Request>
    var toasts: seq<Toast>
    var deleteContainerOpen: bool
    var container: Option<ContainerRows.Container>

    constructor (nodeId: string, containers: Option<seq<ContainerRows.Container>>)
      ensures this.nodeId == nodeId && this.containers == containers
      ensures requests == [] && toasts == [] && !deleteContainerOpen && container == None
    {
      this.nodeId := nodeId;
      this.containers := containers;
      requests := [];
      toasts := [];
      deleteContainerOpen := false;
      container := None;
    }

    /**
     * Sends one request, then applies its effect: the list is replaced
     * wholesale by the refetched one only when the effect asks for a
     * refetch, and the effect's toast, if any, is shown.
     */
    method Dispatch(request: Request, e: Effect, refetched: Option<seq<ContainerRows.Container>>)
      modifies this
      ensures requests == old(requests) + [request]
      ensures containers == (if e.refetch then refetched else old(containers))
      ensures toasts == old(toasts) + (if e.toast.Some? then [e.toast.value] else [])
      ensures deleteContainerOpen == old(deleteContainerOpen) && container == old(container)
    {
      requests := requests + [request];
      if e.refetch {
        containers := refetched;
      }
      if e.toast.Some? {
        toasts := toasts + [e.toast.value];
      }
    }

    /** handleStartContainer: the list changes only when the request succeeded. */
    method HandleStartContainer(id: string, outcome: AxiosOutcome, refetched: Option<seq<ContainerRows.Container>>)
      modifies this
      ensures requests == old(requests) + [Request(ActionPath(nodeId, "start"), id)]
      ensures containers == (if outcome == Resolved then refetched else old(containers))
      ensures toasts == old(toasts) + (if StartEffect(outcome).toast.Some? then [StartEffect(outcome).toast.value] else [])
      ensures deleteContainerOpen == old(deleteContainerOpen) && container == old(container)
    {
      Dispatch(Request(ActionPath(nodeId, "start"), id), StartEffect(outcome), refetched);
    }

    /** handleStopContainer: the list changes only on a 2xx response. */
    method HandleStopContainer(id: string, response: FetchResponse, refetched: Option<seq<ContainerRows.Container>>)
      modifies this
      ensures requests == old(requests) + [Request(ActionPath(nodeId, "stop"), id)]
      ensures containers == (if response.ok then refetched else old(containers))
      ensures var e := FetchEffect(response, "Container stopped.");
              toasts == old(toasts) + (if e.toast.Some? then [e.toast.value] else [])
      ensures deleteContainerOpen == old(deleteContainerOpen) && container == old(container)
    {
      Dispatch(Request(ActionPath(nodeId, "stop"), id), FetchEffect(response, "Container stopped."), refetched);
    }

    /** handleRestartContainer: the list changes only on a 2xx response. */
    method HandleRestartContainer(id: string, response: FetchResponse, refetched: Option<seq<ContainerRows.Container>>)
      modifies this
      ensures requests == old(requests) + [Request(ActionPath(nodeId, "restart"), id)]
      ensures containers == (if response.ok then refetched else old(containers))
      ensures var e := FetchEffect(response, "Container restarted.");
              toasts == old(toasts) + (if e.toast.Some? then [e.toast.value] else [])
      ensures deleteContainerOpen == old(deleteContainerOpen) && container == old(container)
    {
      Dispatch(Request(ActionPath(nodeId, "restart"), id), FetchEffect(response, "Container restarted."), refetched);
    }

    /** handleDeleteContainer: remembers the container and opens the delete dialog; nothing is sent. */
    method HandleDeleteContainer(c: ContainerRows.Container)
      modifies this
      ensures container == Some(c) && deleteContainerOpen
      ensures containers == old(containers) && requests == old(requests) && toasts == old(toasts)
    {
      container := Some(c);
      deleteContainerOpen := true;
    }
  }

  /**
   * After a successful stop, the table is rebuilt from the list the node
   * reports on the refetch: every row's buttons follow that row's reported
   * state, not an assumed "exited".
   */
  method StopThenRender(page: ContainersPage, id: string, refetched: seq<ContainerRows.Container>,
                        containerBaseUrl: Option<string>, location: PortLinks.BrowserLocation)
    returns (body: ContainerRows.TableBody)
    modifies page
    ensures page.containers == Some(refetched)
    ensures body.Rows? && |body.rows| == |refetched|
    ensures forall i :: 0 <= i < |refetched| ==> body.rows[i].actions == ContainerRows.ActionsFor(refetched[i].state)
  {
    page.HandleStopContainer(id, FetchResponse(true, None), Some(refetched));
    body := ContainerRows.TableBodyOf(page.containers, containerBaseUrl, location);
  }
}
