/** llm/tools/git/git_repo_tool.py: which repository files are loaded, and
    the answer layout the git tool returns: a link to each of the first two
    source documents, then the answer, the rating and the comment field. */
module GitRepoTool {
  import opened Wrappers
  import opened Strings
  import opened JsonValues
  import opened SlackBlocks
  import Constants

  /** A source document the retrieval chain returns: its metadata and text. */
  datatype SourceDocument = SourceDocument(metadata: map<string, string>, pageContent: string)

  /** Why building a link raised: no "source" key (KeyError), or a source
      path with no trailing segment, where `.group()` is called on None. */
  datatype ToolError = MissingSourceKey | NoFileNameMatch(source: string)

  // ---------------------------------------------------------------------
  // The file filter of the loader

  /** `path.endswith(tuple(exts))`. */
  predicate EndsWithAny(path: string, exts: seq<string>) {
    exists i | 0 <= i < |exts| :: EndsWith(path, exts[i])
  }

  predicate IsAllowedFile(path: string) {
    EndsWithAny(path, Constants.AllowedFileExtensions)
  }

  /** The files the loader keeps, in the order it walks them. */
  function LoadedFiles(paths: seq<string>): (r: seq<string>)
    ensures |r| <= |paths|
    ensures forall p :: p in r <==> p in paths && IsAllowedFile(p)
  {
    if paths == [] then []
    else (if IsAllowedFile(paths[0]) then [paths[0]] else []) + LoadedFiles(paths[1..])
  }

  /** Every file with an allowed extension is kept, whatever directory it
      is in; a file with any other extension never is. */
  lemma AllowedExtensionsLoaded(dir: string, stem: string, ext: string, paths: seq<string>)
    requires dir + stem + ext in paths
    ensures ext in Constants.AllowedFileExtensions ==> dir + stem + ext in LoadedFiles(paths)
    ensures dir + stem + ext in LoadedFiles(paths) ==>
              exists i | 0 <= i < |Constants.AllowedFileExtensions| ::
                EndsWith(dir + stem + ext, Constants.AllowedFileExtensions[i])
  {
    if ext in Constants.AllowedFileExtensions {
      var i :| 0 <= i < |Constants.AllowedFileExtensions| && Constants.AllowedFileExtensions[i] == ext;
      EndsWithAppend(dir + stem, ext);
      assert EndsWith(dir + stem + ext, Constants.AllowedFileExtensions[i]);
    }
  }

  lemma FilterExamples()
    ensures IsAllowedFile("src/main.py")
    ensures IsAllowedFile("notebooks/analysis.ipynb")
    ensures !IsAllowedFile("README.md")
  {
    assert EndsWith("src/main.py", Constants.AllowedFileExtensions[1]);
    assert EndsWith("notebooks/analysis.ipynb", Constants.AllowedFileExtensions[22]);
  }

  /** Where the repository is cloned. */
  function CloneFolder(projectName: string): (folder: string)
    ensures StartsWith(folder, "downloads/") && folder[|"downloads/"|..] == projectName
  {
    "downloads/" + projectName
  }

  // ---------------------------------------------------------------------
  // source_object_to_slack_block

  /** The match of `[^/]+$` in `s` (searched leftmost, so maximal), or the
      empty string when there is none. */
  function TrailingSegment(s: string): string {
    if s == [] || s[|s| - 1] == '/' then []
    else TrailingSegment(s[..|s| - 1]) + [s[|s| - 1]]
  }

  /** The match is a suffix of the path holding no '/', and it is maximal:
      unless it is the whole path, a '/' precedes it. */
  lemma {:induction false} TrailingSegmentIsMaximalRun(s: string)
    ensures var seg := TrailingSegment(s);
            && EndsWith(s, seg)
            && (forall k :: 0 <= k < |seg| ==> seg[k] != '/')
            && (|seg| < |s| ==> s[|s| - |seg| - 1] == '/')
  {
    if s != [] && s[|s| - 1] != '/' {
      var init := s[..|s| - 1];
      TrailingSegmentIsMaximalRun(init);
      var seg := TrailingSegment(s);
      assert seg == TrailingSegment(init) + [s[|s| - 1]];
      assert s == init + [s[|s| - 1]];
      assert s[|s| - |seg|..] == init[|init| - |TrailingSegment(init)|..] + [s[|s| - 1]];
    }
  }

  /** The file name shown as the link label; None when the regular
      expression does not match. */
  function FileName(source: string): Option<string> {
    var seg := TrailingSegment(source);
    if seg == [] then None else Some(seg)
  }

  /** An independent reading of the label: everything after the last '/'. */
  lemma {:induction false} TrailingSegmentAfterLastSlash(s: string)
    ensures TrailingSegment(s) == s[LastIndexOf(s, '/') + 1..]
  {
    var seg := TrailingSegment(s);
    var last := LastIndexOf(s, '/');
    TrailingSegmentIsMaximalRun(s);
    if |seg| < |s| {
      assert s[|s| - |seg| - 1] == '/';
      assert last == |s| - |seg| - 1;
    } else {
      assert forall k :: 0 <= k < |s| ==> s[k] == seg[k];
      assert last == -1;
    }
  }

  /** The regular expression fails exactly on an empty path and on a path
      that ends with '/'. */
  lemma FileNameMissingIff(source: string)
    ensures FileName(source).None? <==> source == [] || source[|source| - 1] == '/'
  {
    if source != [] && source[|source| - 1] != '/' {
      assert |TrailingSegment(source)| == |TrailingSegment(source[..|source| - 1])| + 1;
    }
  }

  /** Whatever precedes the last '/' does not matter to the label. */
  lemma {:induction false} TrailingSegmentAfterSlash(prefix: string, s: string)
    ensures TrailingSegment(prefix + "/" + s) == TrailingSegment(s)
    decreases |s|
  {
    var whole := prefix + "/" + s;
    if s == [] {
      assert whole[|whole| - 1] == '/';
    } else {
      var last := s[|s| - 1];
      assert whole[|whole| - 1] == last;
      if last != '/' {
        var init := s[..|s| - 1];
        assert whole[..|whole| - 1] == prefix + "/" + init;
        TrailingSegmentAfterSlash(prefix, init);
        assert TrailingSegment(whole) == TrailingSegment(prefix + "/" + init) + [last];
        assert TrailingSegment(s) == TrailingSegment(init) + [last];
      }
    }
  }

  /** A path `dir/name` is labelled `name`. */
  lemma FileNameOfPath(dir: string, name: string)
    requires name != [] && '/' !in name
    ensures FileName(dir + "/" + name) == Some(name)
  {
    TrailingSegmentAfterSlash(dir, name);
    TrailingSegmentAfterLastSlash(name);
    assert LastIndexOf(name, '/') == -1;
    assert name[0..] == name;
  }

  /** The link target of a source document. */
  function BlobUrl(url: string, branchName: string, source: string): string {
    url + "/blob/" + branchName + "/" + source
  }

  /** The label of a link is the last path segment of the URL it opens. */
  lemma LabelIsLastSegmentOfUrl(url: string, branchName: string, source: string)
    ensures FileName(BlobUrl(url, branchName, source)) == FileName(source)
  {
    TrailingSegmentAfterSlash(url + "/blob/" + branchName, source);
  }

  /** The section with the file name and the "Link" button. */
  function LinkBlock(fileName: string, target: string): Block {
    Section(Markdown(JStr(fileName)),
            Some(Button(PlainText(JStr("Link"), Some(true)), "test1", target, "button-action")))
  }

  function SourceLink(url: string, branchName: string, doc: SourceDocument): (r: Result<Block, ToolError>)
    ensures r.Err? <==> "source" !in doc.metadata || FileName(doc.metadata["source"]).None?
    ensures r.Ok? ==> r.value == LinkBlock(FileName(doc.metadata["source"]).value,
                                           BlobUrl(url, branchName, doc.metadata["source"]))
  {
    if "source" !in doc.metadata then Err(MissingSourceKey)
    else
      var source := doc.metadata["source"];
      match FileName(source)
      case None => Err(NoFileNameMatch(source))
      case Some(name) => Ok(LinkBlock(name, BlobUrl(url, branchName, source)))
  }

  /** `list(map(...))` over the documents: one link per document, in order;
      the first document whose link raises ends the tool with that error. */
  function SourceLinks(url: string, branchName: string, docs: seq<SourceDocument>): (r: Result<seq<Block>, ToolError>)
    ensures r.Ok? <==> forall i :: 0 <= i < |docs| ==> SourceLink(url, branchName, docs[i]).Ok?
    ensures r.Ok? ==> |r.value| == |docs|
                      && forall i :: 0 <= i < |docs| ==> r.value[i] == SourceLink(url, branchName, docs[i]).value
    ensures r.Err? ==> exists i :: 0 <= i < |docs|
                        && (forall j :: 0 <= j < i ==> SourceLink(url, branchName, docs[j]).Ok?)
                        && SourceLink(url, branchName, docs[i]).Err?
                        && r.error == SourceLink(url, branchName, docs[i]).error
  {
    if docs == [] then Ok([])
    else match SourceLink(url, branchName, docs[0])
      case Err(e) => Err(e)
      case Ok(b) =>
        match SourceLinks(url, branchName, docs[1..])
        case Err(e) =>
          assert forall i :: 1 <= i < |docs| ==> docs[i] == docs[1..][i - 1];
          Err(e)
        case Ok(bs) =>
          assert forall i :: 1 <= i < |docs| ==> docs[i] == docs[1..][i - 1];
          Ok([b] + bs)
  }

  // ---------------------------------------------------------------------
  // git_tool

  /** What the tool returns once `json.loads` has read it back. */
  function ToolOutput(blocks: seq<Block>): Json {
    JObj(map["slack_response" := BlocksJson(blocks)])
  }

  /** Builds the answer layout from the retrieved documents and the last
      chat-history message: links for at most the first two documents,
      then the answer section, the rating and the comment field. */
  method GitToolBlocks(url: string, branchName: string, sources: seq<SourceDocument>, answer: string)
    returns (r: Result<seq<Block>, ToolError>)
    ensures var shown := if |sources| < 2 then |sources| else 2;
            && (r.Ok? <==> forall i :: 0 <= i < shown ==> SourceLink(url, branchName, sources[i]).Ok?)
            && (r.Ok? ==>
                  && |r.value| == shown + 3
                  && (forall i :: 0 <= i < shown ==> r.value[i] == SourceLink(url, branchName, sources[i]).value)
                  && r.value[shown..] == [AnswerBlock(JStr(answer)), RatingBlock, FeedbackInputBlock])
            && (r.Err? ==> r == SourceLinks(url, branchName, sources[..shown]))
  {
    var shown := if |sources| < 2 then |sources| else 2;
    var links := SourceLinks(url, branchName, sources[..shown]);
    if links.Err? {
      assert exists i :: 0 <= i < shown && SourceLink(url, branchName, sources[..shown][i]).Err?;
      return links;
    }
    var blocks := links.value;
    blocks := blocks + [AnswerBlock(JStr(answer))];
    blocks := blocks + [RatingBlock];
    blocks := blocks + [FeedbackInputBlock];
    assert blocks[shown..] == [AnswerBlock(JStr(answer)), RatingBlock, FeedbackInputBlock];
    return Ok(blocks);
  }

  /** The layout the tool returns reads back, block for block, from its
      `slack_response` entry. */
  lemma ToolOutputCarriesBlocks(blocks: seq<Block>)
    ensures var out := ToolOutput(blocks);
            && out.JObj? && "slack_response" in out.fields
            && BlocksOf(out.fields["slack_response"]) == Some(blocks)
  {
    BlocksRoundTrip(blocks);
  }
}
