/** The project's documents as `fetch_all_documents` normalises them. The listing itself is an input
    of the model. */
module Documents {
  import opened Wrappers

  /** One normalised document: its id, its sanitized file name, its `folderId.native` (0 when that
      is absent or falsy) and its `folderName` (`None` when absent or null). */
  datatype Doc = Doc(id: int, filename: string, folderId: int, folderName: Option<string>)

  /** The distinct non-zero folder ids the documents name: the `unique_fids` of the fallback in
      `fetch_complete_folder_structure`. */
  function DocFolderIds(docs: seq<Doc>): set<int> {
    set i | 0 <= i < |docs| && docs[i].folderId != 0 :: docs[i].folderId
  }
}
