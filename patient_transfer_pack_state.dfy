/**
 * The transfer pack: the payload and URL of `createTransferPack`, its 201
 * check, and the store's submitting/error flags.
 */
module PatientTransferPackState {
  import opened Common

  datatype TransferPatient = TransferPatient(vcareId: Option<string>)
  datatype TransferPack = TransferPack(currentPatient: Option<TransferPatient>)

  datatype RequestedBy = RequestedBy(name: string, position: string)

  /** The body of the POST. */
  datatype Payload = Payload(
    residentId: Option<string>,
    reasonForTransfer: string,
    requestedBy: RequestedBy,
    routineBloodTestingOrMedicalProcedures: string)

  const ReasonForTransfer := "REASON FOR TRANSFER"
  const Requester := RequestedBy("RequestedByName", "RequestedByPosition")
  const RoutineProcedures := "routineBloodTestingOrMedicalProcedures"

  /**
   * The payload of a transfer pack: the resident is the current patient's
   * `vcareId` and every other field is fixed. Destructuring a missing pack
   * or current patient throws.
   */
  function TransferPayload(pack: Option<TransferPack>): (r: Result<Payload>)
    ensures r.Ok? <==> pack.Some? && pack.value.currentPatient.Some?
    ensures r.Ok? ==> r.value.residentId == pack.value.currentPatient.value.vcareId
    ensures r.Ok? ==>
      && r.value.reasonForTransfer == ReasonForTransfer
      && r.value.requestedBy == Requester
      && r.value.routineBloodTestingOrMedicalProcedures == RoutineProcedures
  {
    match pack
    case None => Err(TypeError)
    case Some(p) =>
      match p.currentPatient
      case None => Err(TypeError)
      case Some(cp) => Ok(Payload(cp.vcareId, ReasonForTransfer, Requester, RoutineProcedures))
  }

  /** Two packs give the same payload exactly when their current patients have the same `vcareId`. */
  lemma PayloadDependsOnlyOnResident(a: TransferPatient, b: TransferPatient)
    ensures TransferPayload(Some(TransferPack(Some(a)))) == TransferPayload(Some(TransferPack(Some(b)))) <==> a.vcareId == b.vcareId
  {
    if TransferPayload(Some(TransferPack(Some(a)))) == TransferPayload(Some(TransferPack(Some(b)))) {
      assert TransferPayload(Some(TransferPack(Some(a)))).value.residentId == a.vcareId;
    }
  }

  /** `${base_uri}${base_path_transferpack}` */
  function TransferPackUrl(baseUri: string, basePathTransferPack: string): (r: string)
    ensures |r| == |baseUri| + |basePathTransferPack|
    ensures r[..|baseUri|] == baseUri && r[|baseUri|..] == basePathTransferPack
  {
    baseUri + basePathTransferPack
  }

  /**
   * The `createTransferPack` helper once the POST has settled: a missing
   * pack or patient throws before any request; otherwise the answer must
   * be 201.
   */
  function CreateTransferPackRequest<T>(pack: Option<TransferPack>, response: Response<T>): (r: Result<T>)
    ensures TransferPayload(pack).Err? ==> r == Err(TypeError)
    ensures TransferPayload(pack).Ok? ==> r == ExpectStatus(response, 201)
    ensures r.Ok? <==> TransferPayload(pack).Ok? && response.Response? && response.status == 201
  {
    match TransferPayload(pack)
    case Err(e) => Err(e)
    case Ok(_) => ExpectStatus(response, 201)
  }

  /** The store's submitting flag and recorded error. */
  class TransferPackStore {
    var transferPackSubmitting: bool
    var transferPackError: Option<ErrorRecord>

    constructor()
      ensures !transferPackSubmitting && transferPackError.None?
    {
      transferPackSubmitting, transferPackError := false, None;
    }

    /** `createTransferPack` up to its `await`. */
    method CreateTransferPackStart()
      modifies this
      ensures transferPackSubmitting && transferPackError.None?
    {
      transferPackSubmitting, transferPackError := true, None;
    }

    /** `createTransferPack` after its `await`: the error, if any, then submitting ends. */
    method CreateTransferPackSettle<T>(outcome: Result<T>)
      modifies this
      ensures !transferPackSubmitting
      ensures transferPackError == if outcome.Err? then Some(Record(outcome.error)) else old(transferPackError)
    {
      if outcome.Err? {
        transferPackError := Some(Record(outcome.error));
      }
      transferPackSubmitting := false;
    }

    /**
     * A whole `createTransferPack`: submitting ends false, the error stays
     * null on success and records the failure otherwise.
     */
    method CreateTransferPack<T>(pack: Option<TransferPack>, response: Response<T>)
      modifies this
      ensures !transferPackSubmitting
      ensures var outcome := CreateTransferPackRequest(pack, response);
        transferPackError == if outcome.Err? then Some(Record(outcome.error)) else None
    {
      CreateTransferPackStart();
      CreateTransferPackSettle(CreateTransferPackRequest(pack, response));
    }
  }
}
