/** The `POST` handler of `src/app/api/process-ml/route.ts`: the acceptance checks on the uploaded
    form field, the mapping from the script's outcome to the HTTP response, and the uploads
    directory the handler writes the file into and removes it from again on some paths. */
module ProcessMlRoute {
  import opened Wrappers

  /** An uploaded file: its name, its MIME type and its size in bytes. */
  datatype Upload = Upload(name: string, mime: string, size: nat)

  /** The form field `file` as `formData.get('file')` returns it: absent (`null`), a plain text
      value, or a file. */
  datatype Field = Absent | Text(value: string) | File(upload: Upload)

  /** The JSON responses the handler sends: the script's parsed result relayed as it is, with the
      default status 200, or `{ success: false, error }` with an explicit status. */
  datatype Response<J> = Relayed(result: J) | Rejected(status: nat, error: string)

  /** What running the script gave: `execAsync` rejected, or the process finished with its two
      output streams. */
  datatype Exec = Threw | Finished(stdout: string, stderr: string)

  /** What the handler's own steps gave: whether `request.formData()` resolved, whether the
      directory and the file could be written, whether `unlinkSync` succeeded, and the script. */
  datatype Env = Env(formOk: bool, writeOk: bool, unlinkOk: bool, exec: Exec)

  /** The verdict of the acceptance checks: the accepted upload, or a rejection. */
  datatype Verdict = Accept(upload: Upload) | Reject(status: nat, error: string)

  const MaxSize: nat := 10 * 1024 * 1024

  const NoFileMessage := "No file uploaded. Please select a CSV file to upload."
  const TypeMessage := "Invalid file type. Please upload a CSV file."
  const SizeMessage := "File too large. Please upload a file smaller than 10MB."
  const StderrMessage := "ML processing failed. Please check your CSV file format."
  const ExecMessage := "Failed to process the file. Please ensure Python is installed and the file format is correct."
  const InternalMessage := "Internal server error. Please try again."

  /** JavaScript's `s.endsWith(suffix)`. */
  predicate EndsWith(s: string, suffix: string) {
    |suffix| <= |s| && s[|s| - |suffix|..] == suffix
  }

  /** Line 22: a file passes the type check when its MIME type is `text/csv` or its name ends in
      `.csv`. */
  predicate CsvLike(u: Upload) {
    u.mime == "text/csv" || EndsWith(u.name, ".csv")
  }

  /** Lines 14-35, in order. A missing field and an empty text value are falsy: no file. A
      non-empty text value has neither `type` nor `name`, so reading `file.name.endsWith` throws
      and the outer handler answers. Then the type check, then the size check. */
  function Gate(field: Field): (v: Verdict)
    ensures v.Accept? <==> field.File? && CsvLike(field.upload) && field.upload.size <= MaxSize
    ensures v.Accept? ==> v.upload == field.upload
    ensures v.Reject? ==> v.status == if field.Text? && field.value != "" then 500 else 400
  {
    match field
    case Absent => Reject(400, NoFileMessage)
    case Text(s) => if s == "" then Reject(400, NoFileMessage) else Reject(500, InternalMessage)
    case File(u) =>
      if u.mime != "text/csv" && !EndsWith(u.name, ".csv") then Reject(400, TypeMessage)
      else if u.size > MaxSize then Reject(400, SizeMessage)
      else Accept(u)
  }

  /** Lines 52-88: what the script's run turns into. A non-empty stderr wins over whatever stdout
      holds; a rejected run and a stdout that `JSON.parse` refuses both reach the inner catch;
      otherwise the parsed result is relayed. */
  function Respond<J>(exec: Exec, parse: string -> Option<J>): (r: Response<J>)
    ensures r.Relayed? <==> exec.Finished? && exec.stderr == "" && parse(exec.stdout).Some?
    ensures r.Relayed? ==> Some(r.result) == parse(exec.stdout)
    ensures r.Rejected? ==> r.status == 500 && (r.error == StderrMessage <==> exec.Finished? && exec.stderr != "")
    ensures r.Rejected? && !(exec.Finished? && exec.stderr != "") ==> r == Rejected(500, ExecMessage)
  {
    match exec
    case Threw => Rejected(500, ExecMessage)
    case Finished(out, err) =>
      if err != "" then Rejected(500, StderrMessage)
      else match parse(out)
        case None => Rejected(500, ExecMessage)
        case Some(j) => Relayed(j)
  }

  /** Whether the run reaches one of the two `unlinkSync` calls (lines 68 and 79): every path
      except the early return on a non-empty stderr. */
  predicate ReachesCleanup(exec: Exec) {
    !(exec.Finished? && exec.stderr != "")
  }

  /** The response to one request. */
  function Handle<J>(field: Field, env: Env, parse: string -> Option<J>): (r: Response<J>)
    ensures r.Relayed? ==> env.formOk && Gate(field).Accept? && env.writeOk && r == Respond(env.exec, parse)
    ensures !env.formOk ==> r == Rejected(500, InternalMessage)
    ensures env.formOk && Gate(field).Reject? ==> r == Rejected(Gate(field).status, Gate(field).error)
    ensures env.formOk && Gate(field).Accept? ==>
      r == if env.writeOk then Respond(env.exec, parse) else Rejected(500, InternalMessage)
  {
    if !env.formOk then Rejected(500, InternalMessage)
    else match Gate(field)
      case Reject(status, error) => Rejected(status, error)
      case Accept(u) => if !env.writeOk then Rejected(500, InternalMessage) else Respond(env.exec, parse)
  }

  /** The uploads directory after one request that started with `files` in it. */
  function Remaining(files: set<string>, field: Field, env: Env): (r: set<string>)
    ensures var own := if field.File? then {field.upload.name} else {};
      files - own <= r <= files + own
    ensures !(env.formOk && Gate(field).Accept? && env.writeOk) ==> r == files
  {
    if !env.formOk then files
    else match Gate(field)
      case Reject(_, _) => files
      case Accept(u) =>
        if !env.writeOk then files
        else if ReachesCleanup(env.exec) && env.unlinkOk then files + {u.name} - {u.name}
        else files + {u.name}
  }

  /** The directory `uploads` under the working directory, as the handler sees it. */
  class UploadsDir {
    var present: bool
    var files: set<string>

    constructor (present: bool, files: set<string>)
      ensures this.present == present && this.files == files
    {
      this.present := present;
      this.files := files;
    }

    /** `POST`, step by step: the checks, the directory made when missing, the file saved under
        its own name, the script run, and the clean-up on the paths that have one. */
    method Post<J>(field: Field, env: Env, parse: string -> Option<J>) returns (resp: Response<J>)
      modifies this
      ensures resp == Handle(field, env, parse)
      ensures files == Remaining(old(files), field, env)
      ensures present == (old(present) || (env.formOk && Gate(field).Accept?))
    {
      if !env.formOk {
        return Rejected(500, InternalMessage);
      }
      var verdict := Gate(field);
      if verdict.Reject? {
        return Rejected(verdict.status, verdict.error);
      }
      var name := verdict.upload.name;
      if !present {
        present := true;
      }
      if !env.writeOk {
        return Rejected(500, InternalMessage);
      }
      files := files + {name};
      match env.exec
      case Threw =>
        Unlink(name, env.unlinkOk);
        return Rejected(500, ExecMessage);
      case Finished(out, err) =>
        if err != "" {
          return Rejected(500, StderrMessage);
        }
        var parsed := parse(out);
        if parsed.None? {
          Unlink(name, env.unlinkOk);
          return Rejected(500, ExecMessage);
        }
        Unlink(name, env.unlinkOk);
        return Relayed(parsed.value);
    }

    /** `fs.unlinkSync(filePath)` inside its own try: a failure is only logged. */
    method Unlink(name: string, ok: bool)
      modifies this
      ensures files == if ok then old(files) - {name} else old(files)
      ensures present == old(present)
    {
      if ok {
        files := files - {name};
      }
    }
  }

  // ---------------------------------------------------------------------------------------
  // The acceptance checks

  /** A missing file is rejected first, with 400 and the no-file message, whatever else holds. */
  lemma MissingFileFirst()
    ensures Gate(Absent) == Reject(400, NoFileMessage) && Gate(Text("")) == Reject(400, NoFileMessage)
  {
  }

  /** Either half of the type check lets a file through; only a file failing both is refused,
      and then with the type message whatever its size. */
  lemma TypeCheck(u: Upload)
    ensures Gate(File(u)) == Reject(400, TypeMessage) <==> u.mime != "text/csv" && !EndsWith(u.name, ".csv")
    ensures u.mime == "text/csv" && u.size <= MaxSize ==> Gate(File(u)).Accept?
    ensures EndsWith(u.name, ".csv") && u.size <= MaxSize ==> Gate(File(u)).Accept?
  {
  }

  /** The size limit is inclusive: 10485760 bytes pass, and any file passing the type check
      with more bytes is refused with the size message. */
  lemma SizeBoundary(u: Upload)
    requires CsvLike(u)
    ensures Gate(File(u.(size := 10485760))).Accept?
    ensures Gate(File(u.(size := 10485761))) == Reject(400, SizeMessage)
    ensures u.size > MaxSize ==> Gate(File(u)) == Reject(400, SizeMessage)
    ensures u.size <= MaxSize ==> Gate(File(u)) == Accept(u)
  {
  }

  /** A name ending in `.csv` passes whatever MIME type the browser sent. */
  lemma CsvNamePasses(stem: string, mime: string, size: nat)
    requires size <= MaxSize
    ensures Gate(File(Upload(stem + ".csv", mime, size))) == Accept(Upload(stem + ".csv", mime, size))
  {
    var name := stem + ".csv";
    assert name[|name| - 4..] == ".csv";
  }

  // ---------------------------------------------------------------------------------------
  // The responses

  /** A rejected upload gets the gate's own answer and leaves the directory as it was. */
  lemma RejectedUpload<J>(field: Field, env: Env, parse: string -> Option<J>, files: set<string>)
    requires env.formOk && Gate(field).Reject?
    ensures Handle(field, env, parse) == Rejected(Gate(field).status, Gate(field).error)
    ensures Remaining(files, field, env) == files
  {
  }

  /** A non-empty stderr gives the fixed 500 answer whatever stdout holds. */
  lemma StderrWins<J>(out1: string, out2: string, err: string, parse: string -> Option<J>)
    requires err != ""
    ensures Respond(Finished(out1, err), parse) == Respond(Finished(out2, err), parse) == Rejected(500, StderrMessage)
  {
  }

  /** The script's result is relayed exactly when the run finished with an empty stderr and a
      stdout that parses, and it is relayed unchanged, whatever its own `success` says. */
  lemma RelayedExactly<J>(field: Field, env: Env, parse: string -> Option<J>, j: J)
    ensures Handle(field, env, parse) == Relayed(j) <==>
      && env.formOk && Gate(field).Accept? && env.writeOk
      && env.exec.Finished? && env.exec.stderr == "" && parse(env.exec.stdout) == Some(j)
  {
  }

  /** Every answer other than a relayed result is a failure with status 400 (the gate's checks)
      or 500 (an exception or the script's failure). */
  lemma FailureStatuses<J>(field: Field, env: Env, parse: string -> Option<J>)
    ensures var r := Handle(field, env, parse);
      r.Rejected? ==> r.status == 400 || r.status == 500
    ensures var r := Handle(field, env, parse);
      r.Rejected? && r.status == 400 <==> env.formOk && Gate(field).Reject? && Gate(field).status == 400
  {
  }

  /** A run that threw and a stdout that is not JSON give the same answer. */
  lemma UnparsableLikeThrown<J>(field: Field, env: Env, parse: string -> Option<J>)
    requires env.exec.Finished? && env.exec.stderr == "" && parse(env.exec.stdout).None?
    ensures Handle(field, env, parse) == Handle(field, env.(exec := Threw), parse)
  {
  }

  // ---------------------------------------------------------------------------------------
  // The uploads directory

  /** Once saved, the upload is gone afterwards exactly when the run reached a clean-up and the
      removal succeeded: a non-empty stderr leaves it behind. */
  lemma UploadLeftBehind(files: set<string>, field: Field, env: Env)
    requires env.formOk && Gate(field).Accept? && env.writeOk
    ensures var name := field.upload.name;
      name in Remaining(files, field, env) <==> !ReachesCleanup(env.exec) || !env.unlinkOk
    ensures env.exec.Finished? && env.exec.stderr != "" ==> field.upload.name in Remaining(files, field, env)
  {
  }

  /** A request touches no file but its own upload. */
  lemma OtherFilesKept(files: set<string>, field: Field, env: Env, other: string)
    requires !(field.File? && other == field.upload.name)
    ensures other in Remaining(files, field, env) <==> other in files
  {
  }

  /** On the clean-up paths a successful removal also deletes an older file of the same name. */
  lemma SameNameOverwritten(files: set<string>, field: Field, env: Env)
    requires env.formOk && Gate(field).Accept? && env.writeOk
    requires ReachesCleanup(env.exec) && env.unlinkOk
    ensures Remaining(files, field, env) == files - {field.upload.name}
  {
  }
}
