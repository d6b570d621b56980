/**
 * The upload dialog: a file is chosen under a size gate, then uploaded;
 * the dashboard is told to reload only after an upload that succeeded.
 */
module UploadDialog {
  import opened Wrappers
  import opened Http
  import opened FileService
  import opened ClientUtils

  /** The size gate: strictly below 10 MiB. */
  const MaxBytes: int := 10 * 1024 * 1024

  /** Whether the file picker's selection is taken. */
  predicate Acceptable(chosen: Option<Blob>)
  {
    chosen.Some? && 0 < chosen.value.size < MaxBytes
  }

  /** A template literal's rendering of an optional string. */
  function Rendered(s: Option<string>): string
  {
    if s.Some? then s.value else "undefined"
  }

  /** The dialog's one state cell. */
  class Dialog {
    var file: Option<Blob>

    constructor ()
      ensures file.None?
    {
      file := None;
    }

    /** `handleFileChange`: takes an acceptable selection, otherwise alerts and keeps the previous file. */
    method HandleFileChange(chosen: Option<Blob>) returns (alert: Option<string>)
      modifies this
      ensures Acceptable(chosen) ==> file == chosen && alert.None?
      ensures !Acceptable(chosen) ==> file == old(file) && alert == Some("File size must be less than 10 MB")
    {
      if chosen.Some? && chosen.value.size > 0 && chosen.value.size < 1024 * 1024 * 10 {
        file := chosen;
        alert := None;
      } else {
        alert := Some("File size must be less than 10 MB");
      }
    }

    /**
     * `handleUpload`: with no file, alerts and sends nothing; otherwise
     * uploads it, and calls `onSuccess` only when the upload returned a
     * record. `alert` is the message shown.
     */
    method HandleUpload(server: Request -> Reply<FileDoc>) returns (sent: bool, onSuccess: bool, alert: string)
      ensures sent <==> file.Some?
      ensures file.None? ==> !onSuccess && alert == "File not selected"
      ensures file.Some? ==>
        && (onSuccess <==> UploadFile(file, server).Ok?)
        && (onSuccess ==> server(Request(Post, "/api/files", Form(file.value))).Json?)
        && (onSuccess ==> alert == UploadFile(file, server).value.name + "." +
                                   Rendered(UploadFile(file, server).value.extension) + " uploaded")
        && (!onSuccess ==> alert == "Error: " + UploadFile(file, server).failure.message)
    {
      if file.None? {
        return false, false, "File not selected";
      }
      sent := true;
      var uploaded := UploadFile(file, server);
      match uploaded
      case Ok(doc) =>
        onSuccess := true;
        alert := doc.name + "." + Rendered(doc.extension) + " uploaded";
      case Throw(e) =>
        onSuccess := false;
        alert := "Error: " + e.message;
    }
  }

  /** A selection the gate refuses is never uploaded: the earlier choice is what gets sent. */
  method RefusedFileIsNotSent(previous: Blob, refused: Blob, server: Request -> Reply<FileDoc>)
    returns (sent: bool, sentFile: Option<Blob>)
    requires Acceptable(Some(previous)) && !Acceptable(Some(refused))
    ensures sent && sentFile == Some(previous)
  {
    var dialog := new Dialog();
    var _ := dialog.HandleFileChange(Some(previous));
    var _ := dialog.HandleFileChange(Some(refused));
    var onSuccess, alert;
    sent, onSuccess, alert := dialog.HandleUpload(server);
    sentFile := dialog.file;
  }
}
