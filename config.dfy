/** The configuration record of the upload handler (the exported fields of the Go
    struct `Upload`), as a value. */
module Config {
  import opened Base

  datatype UploadConfig = UploadConfig(
    destDir: string,
    fileFieldName: string,
    maxFilesize: int64,
    maxFilesizeH: string,
    maxFormBuffer: int64,
    maxFormBufferH: string,
    responseTemplate: string,
    notifyURL: string,
    notifyMethod: string,
    createUuidDir: bool,
    insecureSkipVerify: bool,
    caPath: string)

  /** Go's zero value of the struct: every string empty, every number zero, every flag false. */
  const ZeroConfig: UploadConfig := UploadConfig("", "", 0, "", 0, "", "", "", "", false, false, "")

  /** The fields by name, so that frame properties can quantify over them. */
  datatype Field =
    | DestDir | FileFieldName | MaxFilesize | MaxFilesizeH | MaxFormBuffer | MaxFormBufferH
    | ResponseTemplate | NotifyURL | NotifyMethod | CreateUuidDir | InsecureSkipVerify | CAPath

  /** a and b hold the same value in field f. */
  predicate Agree(a: UploadConfig, b: UploadConfig, f: Field)
  {
    match f
    case DestDir => a.destDir == b.destDir
    case FileFieldName => a.fileFieldName == b.fileFieldName
    case MaxFilesize => a.maxFilesize == b.maxFilesize
    case MaxFilesizeH => a.maxFilesizeH == b.maxFilesizeH
    case MaxFormBuffer => a.maxFormBuffer == b.maxFormBuffer
    case MaxFormBufferH => a.maxFormBufferH == b.maxFormBufferH
    case ResponseTemplate => a.responseTemplate == b.responseTemplate
    case NotifyURL => a.notifyURL == b.notifyURL
    case NotifyMethod => a.notifyMethod == b.notifyMethod
    case CreateUuidDir => a.createUuidDir == b.createUuidDir
    case InsecureSkipVerify => a.insecureSkipVerify == b.insecureSkipVerify
    case CAPath => a.caPath == b.caPath
  }

  /** Two records that agree on every field are equal. */
  lemma AgreeEverywhere(a: UploadConfig, b: UploadConfig)
    requires forall f :: Agree(a, b, f)
    ensures a == b
  {
    assert Agree(a, b, DestDir) && Agree(a, b, FileFieldName) && Agree(a, b, MaxFilesize);
    assert Agree(a, b, MaxFilesizeH) && Agree(a, b, MaxFormBuffer) && Agree(a, b, MaxFormBufferH);
    assert Agree(a, b, ResponseTemplate) && Agree(a, b, NotifyURL) && Agree(a, b, NotifyMethod);
    assert Agree(a, b, CreateUuidDir) && Agree(a, b, InsecureSkipVerify) && Agree(a, b, CAPath);
  }
}
