/**
 * The administrator's fee table: loading the fees, changing one fee's payment
 * status through the two-option selector, deleting a fee, and the bulk upload
 * that always files fees as unpaid.
 */
module Fees {
  import opened Common
  import opened Http

  const Unpaid := "UNPAID"
  const Paid := "PAID"

  /** The values the status selector offers. */
  const StatusOptions: seq<string> := [Unpaid, Paid]

  /** A fee row. The amount and due date are kept as the server's text. */
  datatype Fee = Fee(id: int, roomNumber: string, description: string, amount: string, dueDate: string,
                     status: string)

  /** Every fee carries a status the selector offers. */
  predicate StatusesOffered(fees: seq<Fee>) {
    forall i :: 0 <= i < |fees| ==> fees[i].status in StatusOptions
  }

  /** `fees.map(fee => fee.id === feeId ? { ...fee, status } : fee)` */
  function WithStatus(fees: seq<Fee>, feeId: int, status: string): seq<Fee> {
    UpdateWhere(fees, (f: Fee) => f.id == feeId, (f: Fee) => f.(status := status))
  }

  /** A status change touches only the fees with that id and only their status, and a status
      picked from the selector keeps every status one the selector offers. */
  lemma WithStatusCorrect(fees: seq<Fee>, feeId: int, status: string)
    ensures |WithStatus(fees, feeId, status)| == |fees|
    ensures forall i :: 0 <= i < |fees| ==>
      WithStatus(fees, feeId, status)[i] == if fees[i].id == feeId then fees[i].(status := status) else fees[i]
    ensures StatusesOffered(fees) && status in StatusOptions ==> StatusesOffered(WithStatus(fees, feeId, status))
  {
  }

  /** `fees.filter(fee => fee.id !== feeId)` */
  function WithoutFee(fees: seq<Fee>, feeId: int): seq<Fee> {
    Filter(fees, (f: Fee) => f.id != feeId)
  }

  /** Deleting removes exactly the fees with that id and keeps the rest in order. */
  lemma WithoutFeeCorrect(fees: seq<Fee>, feeId: int)
    ensures forall f :: f in WithoutFee(fees, feeId) <==> f in fees && f.id != feeId
    ensures Subsequence(WithoutFee(fees, feeId), fees)
    ensures forall f :: multiset(WithoutFee(fees, feeId))[f] == if f.id != feeId then multiset(fees)[f] else 0
    ensures StatusesOffered(fees) ==> StatusesOffered(WithoutFee(fees, feeId))
  {
    FilterExactly(fees, (f: Fee) => f.id != feeId);
  }

  /** The fields of the upload form; the spreadsheet itself is not modelled. */
  datatype UploadForm = UploadForm(description: string, dueDate: string, feeType: string)

  datatype Request =
    | GetFees                                                                      // GET /demo/admin/fees
    | UploadFees(description: string, dueDate: string, status: string, feeType: string)  // POST …/fees/upload
    | UpdateStatus(feeId: int, status: string)                                     // PUT …/fees/update-status
    | DeleteFee(feeId: int)                                                        // DELETE …/fees/{id}

  /** The notification a failed request raises: the rejection's message, or the handler's own
      text for a status that is not ok. */
  function Failure<B>(reply: Reply<B>, text: string): (t: Toast)
    requires !Ok(reply)
    ensures t.ErrorToast?
    ensures reply.Response? ==> t == ErrorToast(text)
  {
    ErrorToast(if reply.NetworkError? then reply.reason else text)
  }

  class FeeTable {
    var fees: seq<Fee>
    var loading: bool
    var uploadModalOpen: bool
    var toasts: seq<Toast>
    var requests: seq<Request>

    constructor ()
      ensures fees == [] && loading && !uploadModalOpen && toasts == [] && requests == []
    {
      fees := [];
      loading := true;
      uploadModalOpen := false;
      toasts := [];
      requests := [];
    }

    /** `fetchFees`: a good reply replaces the table; a failure keeps it and notifies. */
    method FetchFees(reply: Reply<seq<Fee>>)
      modifies this`fees, this`loading, this`toasts, this`requests
      ensures requests == old(requests) + [GetFees] && !loading
      ensures Ok(reply) && reply.body.Json? ==> fees == reply.body.value && toasts == old(toasts)
      ensures !Ok(reply) ==> fees == old(fees) && toasts == old(toasts) + [Failure(reply, "Failed to fetch fees")]
      ensures Ok(reply) && reply.body.Unparsable? ==>
        fees == old(fees) && toasts == old(toasts) + [ErrorToast(reply.body.syntaxError)]
    {
      requests := requests + [GetFees];
      if !Ok(reply) {
        toasts := toasts + [Failure(reply, "Failed to fetch fees")];
      } else if reply.body.Unparsable? {
        toasts := toasts + [ErrorToast(reply.body.syntaxError)];
      } else {
        fees := reply.body.value;
      }
      loading := false;
    }

    /** `handleUploadFees`: the upload is always filed as UNPAID; success closes the dialog and
        reloads the table (its reply is applied by `FetchFees`). */
    method HandleUploadFees(values: UploadForm, reply: Reply<()>)
      modifies this`uploadModalOpen, this`toasts, this`requests
      ensures Ok(reply) ==>
        requests == old(requests) + [UploadFees(values.description, values.dueDate, Unpaid, values.feeType), GetFees] &&
        !uploadModalOpen && toasts == old(toasts) + [SuccessToast("Fees uploaded successfully")]
      ensures !Ok(reply) ==>
        requests == old(requests) + [UploadFees(values.description, values.dueDate, Unpaid, values.feeType)] &&
        uploadModalOpen == old(uploadModalOpen) && toasts == old(toasts) + [Failure(reply, "Failed to upload fees")]
    {
      requests := requests + [UploadFees(values.description, values.dueDate, Unpaid, values.feeType)];
      if Ok(reply) {
        toasts := toasts + [SuccessToast("Fees uploaded successfully")];
        uploadModalOpen := false;
        requests := requests + [GetFees];
      } else {
        toasts := toasts + [Failure(reply, "Failed to upload fees")];
      }
    }

    /** `handleStatusChange(feeId, status)`: an ok reply sets the status of the fees with that
        id; a failure leaves the table as it was. */
    method HandleStatusChange(feeId: int, status: string, reply: Reply<()>)
      modifies this`fees, this`toasts, this`requests
      ensures requests == old(requests) + [UpdateStatus(feeId, status)]
      ensures Ok(reply) ==> fees == WithStatus(old(fees), feeId, status) && toasts == old(toasts)
      ensures !Ok(reply) ==> fees == old(fees) && toasts == old(toasts) + [Failure(reply, "Failed to update status")]
    {
      requests := requests + [UpdateStatus(feeId, status)];
      if Ok(reply) {
        fees := WithStatus(fees, feeId, status);
      } else {
        toasts := toasts + [Failure(reply, "Failed to update status")];
      }
    }

    /** `handleDeleteFee(feeId)`: an ok reply removes exactly the fees with that id. */
    method HandleDeleteFee(feeId: int, reply: Reply<()>)
      modifies this`fees, this`toasts, this`requests
      ensures requests == old(requests) + [DeleteFee(feeId)]
      ensures Ok(reply) ==>
        fees == WithoutFee(old(fees), feeId) && toasts == old(toasts) + [SuccessToast("Fee deleted successfully")]
      ensures !Ok(reply) ==> fees == old(fees) && toasts == old(toasts) + [Failure(reply, "Failed to delete fee")]
    {
      requests := requests + [DeleteFee(feeId)];
      if Ok(reply) {
        toasts := toasts + [SuccessToast("Fee deleted successfully")];
        fees := WithoutFee(fees, feeId);
      } else {
        toasts := toasts + [Failure(reply, "Failed to delete fee")];
      }
    }
  }
}
