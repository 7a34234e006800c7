/**
 * The upload form of the browser client: four pieces of state (name,
 * description, chosen file, status message) and the submit handler that
 * posts them to the server and reports the outcome.
 */
module UploadRoute {
  import opened Wrappers

  /** A file the user picked; only its identity matters here. */
  datatype GpxFile = GpxFile(fileName: string, bytes: seq<bv8>)

  /** A value of a multipart form field. */
  datatype FormValue = Text(text: string) | Attachment(file: GpxFile)

  datatype FormEntry = FormEntry(key: string, value: FormValue)

  /**
   * What came of posting the form: an ok response; a response that is not
   * ok, with the `error` field of its decoded body (None when there is no
   * such field); or an exception from the request or from decoding the body.
   */
  datatype UploadOutcome = Accepted | Refused(error: Option<string>) | Threw

  const SelectFileMessage: string := "Please select a GPX file."
  const SuccessMessage: string := "Route uploaded successfully!"
  const FailedMessage: string := "Upload failed."
  const NetworkErrorMessage: string := "Network error."

  /** The multipart body built from the current name, description and file. */
  function FormBody(name: string, description: string, file: GpxFile): (body: seq<FormEntry>)
    ensures |body| == 3
    ensures body[0].key == "name" && body[1].key == "description" && body[2].key == "gpxFile"
    ensures body[0].value == Text(name) && body[1].value == Text(description) && body[2].value == Attachment(file)
  {
    [FormEntry("name", Text(name)), FormEntry("description", Text(description)), FormEntry("gpxFile", Attachment(file))]
  }

  /** The message shown for a refused upload: the server's error if truthy, otherwise a fallback. */
  function RefusalMessage(error: Option<string>): (m: string)
    ensures error.Some? && error.value != "" ==> m == error.value
    ensures error.None? || error.value == "" ==> m == FailedMessage
  {
    if error.Some? && error.value != "" then error.value else FailedMessage
  }

  class UploadForm {
    var name: string
    var description: string
    var gpxFile: Option<GpxFile>
    var status: Option<string>

    /** The form as first shown: empty fields, no file, no status. */
    constructor ()
      ensures name == "" && description == "" && gpxFile == None && status == None
    {
      name, description, gpxFile, status := "", "", None, None;
    }

    /** Typing in the name field. */
    method EditName(value: string)
      modifies this
      ensures name == value
      ensures description == old(description) && gpxFile == old(gpxFile) && status == old(status)
    {
      name := value;
    }

    /** Typing in the description field. */
    method EditDescription(value: string)
      modifies this
      ensures description == value
      ensures name == old(name) && gpxFile == old(gpxFile) && status == old(status)
    {
      description := value;
    }

    /** Choosing files: the first chosen file, or none. */
    method ChooseFiles(files: seq<GpxFile>)
      modifies this
      ensures gpxFile == if |files| > 0 then Some(files[0]) else None
      ensures name == old(name) && description == old(description) && status == old(status)
    {
      gpxFile := if |files| > 0 then Some(files[0]) else None;
    }

    /**
     * `handleSubmit`: without a file, ask for one and send nothing; otherwise
     * send the form and report `outcome`, clearing the form on success.
     */
    method Submit(outcome: UploadOutcome) returns (sent: Option<seq<FormEntry>>)
      modifies this
      ensures old(gpxFile).None? ==>
                sent == None && status == Some(SelectFileMessage) &&
                name == old(name) && description == old(description) && gpxFile == old(gpxFile)
      ensures old(gpxFile).Some? ==> sent == Some(FormBody(old(name), old(description), old(gpxFile).value))
      ensures old(gpxFile).Some? && outcome.Accepted? ==>
                status == Some(SuccessMessage) && name == "" && description == "" && gpxFile == None
      ensures old(gpxFile).Some? && outcome.Refused? ==>
                status == Some(RefusalMessage(outcome.error)) &&
                name == old(name) && description == old(description) && gpxFile == old(gpxFile)
      ensures old(gpxFile).Some? && outcome.Threw? ==>
                status == Some(NetworkErrorMessage) &&
                name == old(name) && description == old(description) && gpxFile == old(gpxFile)
    {
      if gpxFile.None? {
        status := Some(SelectFileMessage);
        return None;
      }
      sent := Some(FormBody(name, description, gpxFile.value));
      match outcome
      case Accepted =>
        status := Some(SuccessMessage);
        name := "";
        description := "";
        gpxFile := None;
      case Refused(error) =>
        status := Some(RefusalMessage(error));
      case Threw =>
        status := Some(NetworkErrorMessage);
    }
  }
}
