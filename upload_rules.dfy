/** The checks of the file-upload endpoints: the storage must be configured,
    the folder must be one of seven, and (for pre-signed upload URLs) the file
    type must be one the folder accepts. */
module UploadRules {
  import opened Common

  const AllowedFolders: seq<string> := [
    "teams", "drivers-profile", "drivers-files", "clients-files",
    "vehicles-profile", "vehicles-files", "user-profiles"
  ]

  /** Every extension some folder accepts. */
  const KnownTypes: set<string> := {"jpg", "jpeg", "png", "gif", "svg", "pdf", "doc", "docx", "xls", "xlsx"}

  /** The file extensions a folder accepts; a folder outside the list gets a
      default set. */
  function AllowedTypesForFolder(folder: string): (types: seq<string>)
    ensures "jpg" in types && "jpeg" in types && "png" in types
    ensures forall t :: t in types ==> t in KnownTypes
    ensures folder !in AllowedFolders ==> types == ["jpg", "jpeg", "png", "pdf", "doc", "docx"]
  {
    match folder
    case "teams" => ["jpg", "jpeg", "png", "gif", "svg"]
    case "drivers-profile" => ["jpg", "jpeg", "png", "gif"]
    case "drivers-files" => ["pdf", "jpg", "jpeg", "png", "doc", "docx"]
    case "clients-files" => ["pdf", "jpg", "jpeg", "png", "doc", "docx", "xls", "xlsx"]
    case "vehicles-profile" => ["jpg", "jpeg", "png", "gif"]
    case "vehicles-files" => ["pdf", "jpg", "jpeg", "png", "doc", "docx"]
    case "user-profiles" => ["jpg", "jpeg", "png", "gif"]
    case _ => ["jpg", "jpeg", "png", "pdf", "doc", "docx"]
  }

  /** Spreadsheets go only to client files, vector images only to team
      folders. */
  lemma TypeTable(folder: string)
    ensures "xls" in AllowedTypesForFolder(folder) <==> folder == "clients-files"
    ensures "xlsx" in AllowedTypesForFolder(folder) <==> folder == "clients-files"
    ensures "svg" in AllowedTypesForFolder(folder) <==> folder == "teams"
  {
  }

  /** Only the four picture folders refuse PDF files. */
  lemma PdfTable(folder: string)
    ensures "pdf" !in AllowedTypesForFolder(folder) <==>
              folder == "teams" || folder == "drivers-profile" || folder == "vehicles-profile" || folder == "user-profiles"
  {
  }

  /** The `isPublic` form field: only the exact text "true" counts. */
  function IsPublicFlag(field: string): bool {
    field == "true"
  }

  lemma OnlyExactTrueIsPublic()
    ensures IsPublicFlag("true")
    ensures !IsPublicFlag("TRUE") && !IsPublicFlag("True") && !IsPublicFlag("1") && !IsPublicFlag("")
  {
  }

  /** The checks of uploadFileWithFolder, in order. */
  function CheckFolderUpload(configured: bool, folder: string): (r: Outcome<()>)
    ensures !configured ==> r == Fail(ServiceUnavailable)
    ensures configured ==> (r.Ok? <==> folder in AllowedFolders)
    ensures configured && folder !in AllowedFolders ==> r == Fail(BadRequest)
  {
    if !configured then Fail(ServiceUnavailable)
    else if folder !in AllowedFolders then Fail(BadRequest)
    else Ok(())
  }

  /** The checks of generateUploadUrl, in order: configured, folder, then the
      storage service's file-type check against the folder's types. */
  function CheckUploadUrl(configured: bool, folder: string, fileName: string,
                          validateFileType: (string, seq<string>) -> bool): (r: Outcome<()>)
    ensures !configured ==> r == Fail(ServiceUnavailable)
    ensures configured && folder !in AllowedFolders ==> r == Fail(BadRequest)
    ensures r.Ok? <==> configured && folder in AllowedFolders && validateFileType(fileName, AllowedTypesForFolder(folder))
    ensures r.Err? ==> r == Fail(ServiceUnavailable) || r == Fail(BadRequest)
  {
    if !configured then Fail(ServiceUnavailable)
    else if folder !in AllowedFolders then Fail(BadRequest)
    else if !validateFileType(fileName, AllowedTypesForFolder(folder)) then Fail(BadRequest)
    else Ok(())
  }

  /** The folder check comes first, so the default type list is never
      consulted: for a folder outside the list, the type check cannot change
      the outcome. */
  lemma DefaultTypesNeverConsulted(configured: bool, folder: string, fileName: string,
                                   v1: (string, seq<string>) -> bool, v2: (string, seq<string>) -> bool)
    requires folder !in AllowedFolders
    ensures CheckUploadUrl(configured, folder, fileName, v1) == CheckUploadUrl(configured, folder, fileName, v2)
    ensures CheckUploadUrl(configured, folder, fileName, v1).Err?
  {
  }

  /** Both endpoints accept the same folders. */
  lemma SameFolderRule(folder: string, fileName: string, v: (string, seq<string>) -> bool)
    ensures CheckUploadUrl(true, folder, fileName, v).Ok? ==> CheckFolderUpload(true, folder).Ok?
  {
  }
}
