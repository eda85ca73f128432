/** The verification page: which id is checked, the result built from the
    stored certificate, the busy flag around the lookup, the verify button's
    state, and the automatic check of an id arriving in the link. */
module Verify {
  import opened Common
  import Storage
  import Qr

  /** `VerificationResult`; absent keys are `None`. */
  datatype VerificationResult = VerificationResult(
    isValid: bool,
    certificateId: Option<string>,
    recipientName: Option<string>,
    date: Option<string>,
    signature: Option<string>,
    createdAt: Option<string>,
    verificationUrl: Option<string>,
    error: Option<string>)

  const EmptyIdError := "Please enter a certificate ID"
  const NotFoundError := "Certificate not found. This certificate may not exist or may have been deleted."
  const FailedError := "Verification failed. Please try again."
  const NotProvided := "Not provided"

  function Invalid(message: string): (r: VerificationResult)
    ensures !r.isValid && r.error == Some(message)
  {
    VerificationResult(false, None, None, None, None, None, None, Some(message))
  }

  /** The id checked: the argument when it is non-empty (untrimmed),
      otherwise the trimmed input box. */
  function CertIdToUse(arg: Option<string>, input: string): (r: string)
    ensures Truthy(arg) ==> r == arg.value
    ensures !Truthy(arg) ==> r == Trim(input)
    ensures r == "" <==> !Truthy(arg) && forall i :: 0 <= i < |input| ==> IsJsWhitespace(input[i])
  {
    Or(arg, Trim(input))
  }

  /** `recipientData[key]`, `undefined` when absent. */
  function Entry(data: map<string, string>, key: string): Option<string> {
    if key in data then Some(data[key]) else None
  }

  /** The result for a found certificate. `localeDate` and `localeDateTime`
      are what `toLocaleDateString` and `toLocaleString` print for its
      creation time. */
  function FoundResult(c: Storage.CertificateRecord, localeDate: string, localeDateTime: string): (r: VerificationResult)
    ensures r.isValid && r.error == None
    ensures r.certificateId == Some(c.certificateId) && r.recipientName == Some(c.recipientName)
    ensures r.verificationUrl == Some(c.verificationUrl) && r.createdAt == Some(localeDateTime)
    ensures r.date == Some(Or(Entry(c.recipientData, "date"), localeDate))
    ensures r.signature == Some(Or(Entry(c.recipientData, "signature"), NotProvided))
  {
    VerificationResult(true, Some(c.certificateId), Some(c.recipientName),
                       Some(Or(Entry(c.recipientData, "date"), localeDate)),
                       Some(Or(Entry(c.recipientData, "signature"), NotProvided)),
                       Some(localeDateTime), Some(c.verificationUrl), None)
  }

  /** What the lookup produced. */
  datatype LookupOutcome = Found(record: Storage.CertificateRecord) | NotFound | Threw

  /** The result once the lookup has settled. */
  function SettledResult(outcome: LookupOutcome, localeDate: string, localeDateTime: string): (r: VerificationResult)
    ensures r.isValid <==> outcome.Found?
    ensures outcome.NotFound? ==> r == Invalid(NotFoundError)
    ensures outcome.Threw? ==> r == Invalid(FailedError)
    ensures outcome.Found? ==> r.certificateId == Some(outcome.record.certificateId)
  {
    match outcome
    case Found(c) => FoundResult(c, localeDate, localeDateTime)
    case NotFound => Invalid(NotFoundError)
    case Threw => Invalid(FailedError)
  }

  /** The outcome the store gives for an id. */
  function StoreOutcome(store: map<string, Storage.CertificateRecord>, all: seq<Storage.CertificateRecord>, id: string): (r: LookupOutcome)
    ensures r.Found? <==> Storage.Lookup(store, all, id).Some?
    ensures r.Found? ==> r.record == Storage.Lookup(store, all, id).value
    ensures !r.Threw?
  {
    match Storage.Lookup(store, all, id)
    case Some(c) => Found(c)
    case None => NotFound
  }

  /** `disabled` of the verify button. */
  predicate ButtonDisabled(isVerifying: bool, input: string) {
    isVerifying || Trim(input) == ""
  }

  /** With an idle page, the button is enabled exactly when clicking it
      would check a non-empty id. */
  lemma ButtonEnabledIffIdPresent(input: string)
    ensures !ButtonDisabled(false, input) <==> CertIdToUse(None, input) != ""
  {
  }

  /** The id taken from the page's link (`certificateId` of its query), when
      it is non-empty. */
  function IdFromUrl(url: string): (r: Option<string>)
    ensures r.Some? ==> r.value != "" && Qr.QueryParam(url, Qr.ParamName) == r
    ensures Qr.QueryParam(url, Qr.ParamName).Some? && Qr.QueryParam(url, Qr.ParamName).value != ""
      ==> r == Qr.QueryParam(url, Qr.ParamName)
  {
    match Qr.QueryParam(url, Qr.ParamName)
    case Some(id) => if id != "" then Some(id) else None
    case None => None
  }

  /** A link made for a non-empty certificate id leads the page to check
      exactly that id. */
  lemma LinkLeadsToId(origin: Option<string>, id: string, input: string)
    requires Qr.PlainOrigin(origin)
    requires id != ""
    ensures IdFromUrl(Qr.VerificationUrl(origin, id)) == Some(id)
    ensures CertIdToUse(IdFromUrl(Qr.VerificationUrl(origin, id)), input) == id
  {
    Qr.VerificationUrlRoundTrip(origin, id);
  }

  /** The page's state: the input box, the busy flag, the shown result, and
      the ids it has asked the store for. */
  class VerifyPage {
    var certificateId: string
    var isVerifying: bool
    var result: Option<VerificationResult>
    var lookups: seq<string>

    constructor()
      ensures certificateId == "" && !isVerifying && result == None && lookups == []
    {
      certificateId := "";
      isVerifying := false;
      result := None;
      lookups := [];
    }

    /** Typing in the input box. */
    method SetInput(text: string)
      modifies this
      ensures certificateId == text
      ensures isVerifying == old(isVerifying) && result == old(result) && lookups == old(lookups)
    {
      certificateId := text;
    }

    /** The synchronous start of `verifyCertificate`: an empty id shows the
        error and stops; otherwise the page becomes busy, clears the result
        and asks the store. */
    method Start(arg: Option<string>) returns (id: Option<string>)
      modifies this
      ensures var chosen := CertIdToUse(arg, old(certificateId));
              (chosen == "" ==> id == None && result == Some(Invalid(EmptyIdError)) &&
                                isVerifying == old(isVerifying) && lookups == old(lookups)) &&
              (chosen != "" ==> id == Some(chosen) && result == None && isVerifying &&
                                lookups == old(lookups) + [chosen])
      ensures certificateId == old(certificateId)
    {
      var chosen := CertIdToUse(arg, certificateId);
      if chosen == "" {
        result := Some(Invalid(EmptyIdError));
        return None;
      }
      isVerifying := true;
      result := None;
      lookups := lookups + [chosen];
      id := Some(chosen);
    }

    /** The lookup settles: the result is shown and, in `finally`, the page
        stops being busy whatever the outcome. */
    method Settle(outcome: LookupOutcome, localeDate: string, localeDateTime: string)
      modifies this
      ensures result == Some(SettledResult(outcome, localeDate, localeDateTime)) && !isVerifying
      ensures certificateId == old(certificateId) && lookups == old(lookups)
    {
      result := Some(SettledResult(outcome, localeDate, localeDateTime));
      isVerifying := false;
    }
  }

  /** One whole check: busy exactly while the store is asked, idle
      afterwards, with the result for the outcome of that id. */
  method VerifyCertificate(page: VerifyPage, arg: Option<string>, lookup: string -> LookupOutcome,
                           localeDate: string, localeDateTime: string)
    requires !page.isVerifying
    modifies page
    ensures !page.isVerifying
    ensures var chosen := CertIdToUse(arg, old(page.certificateId));
            (chosen == "" ==> page.result == Some(Invalid(EmptyIdError)) && page.lookups == old(page.lookups)) &&
            (chosen != "" ==> page.result == Some(SettledResult(lookup(chosen), localeDate, localeDateTime)) &&
                              page.lookups == old(page.lookups) + [chosen])
  {
    var id := page.Start(arg);
    if id.Some? {
      assert page.isVerifying;
      page.Settle(lookup(id.value), localeDate, localeDateTime);
    }
  }

  /** Scanning the QR code of a stored certificate shows a valid result:
      the link carries its certificate id, and the store finds a record for
      it. */
  method ScannedCertificateVerifies(page: VerifyPage, origin: Option<string>,
                                    store: map<string, Storage.CertificateRecord>, all: seq<Storage.CertificateRecord>,
                                    key: string, localeDate: string, localeDateTime: string)
    requires !page.isVerifying
    requires Qr.PlainOrigin(origin)
    requires Storage.IsListing(all, store)
    requires key in store && store[key].certificateId != ""
    modifies page
    ensures page.result.Some? && page.result.value.isValid
  {
    var id := store[key].certificateId;
    var arg := IdFromUrl(Qr.VerificationUrl(origin, id));
    LinkLeadsToId(origin, id, page.certificateId);
    Storage.LookupComplete(store, all, id, key);
    VerifyCertificate(page, arg, (q: string) => StoreOutcome(store, all, q), localeDate, localeDateTime);
  }
}
