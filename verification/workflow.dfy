/** The script's top-level flow: read the token, list the root, pick a
    folder, list it, pick a file, choose the destination and fetch the raw
    content. Terminal input is a given sequence of lines per prompt, and the
    remote service is a given function from request URL to response body. */
module Workflow {
  import opened Common
  import opened Decimal
  import opened Listing
  import opened Menu
  import opened Api

  /** How one selection step ends: a pick, a fatal data-shape error, or the
      typed lines running out before a valid one. */
  datatype Choice = Chosen(pick: Pick) | Stopped(error: Error) | OutOfInput

  /** One selection step: reject an empty listing, keep the entries of type
      `tag`, reject an empty result, number the names and re-prompt until a
      line is accepted. */
  method ChooseEntry(listing: Decoded, tag: string, at: Stage, lines: seq<string>) returns (c: Choice)
    ensures IsEmptyListing(listing) ==> c == Stopped(EmptyResponse(at))
    ensures !IsEmptyListing(listing) && Filter(listing.entries, tag) == [] ==> c == Stopped(NothingFound(at))
    ensures c.Stopped? ==> IsEmptyListing(listing) || Filter(listing.entries, tag) == []
    ensures c.Chosen? ==>
              && !IsEmptyListing(listing)
              && Some(c.pick.attempt) == FirstValid(lines, |Filter(listing.entries, tag)|)
              && c.pick.line == lines[c.pick.attempt]
              && Some(c.pick.name) == Resolve(Filter(listing.entries, tag), lines)
    ensures c.OutOfInput? ==>
              && !IsEmptyListing(listing)
              && Filter(listing.entries, tag) != []
              && FirstValid(lines, |Filter(listing.entries, tag)|) == None
  {
    if IsEmptyListing(listing) {
      return Stopped(EmptyResponse(at));
    }
    var names := Filter(listing.entries, tag);
    if names == [] {
      return Stopped(NothingFound(at));
    }
    var m := SelectionMap(names);
    var r := PromptLoop(m, lines);
    forall j | 0 <= j < |lines|
      ensures Accepts(m, lines[j]) <==> ValidChoice(lines[j], |names|)
    {
      AcceptsIffValidChoice(names, lines[j]);
    }
    match r {
      case None =>
        assert FirstValid(lines, |names|) == None;
        c := OutOfInput;
      case Some(p) =>
        AcceptedLineResolves(names, p.line);
        FirstValidAt(lines, |names|, p.attempt);
        c := Chosen(p);
    }
  }

  /** The names of type `tag` a decoded body offers; nothing when it did
      not decode to a listing array. */
  function Offered(decoded: Option<Decoded>, tag: string): seq<string> {
    match decoded
    case Some(Items(entries)) => Filter(entries, tag)
    case _ => []
  }

  /** How a run ends: the file saved, a fatal error, or the input running
      out at one of the prompts. */
  datatype Outcome =
    | Saved(dir: string, file: string, dest: string, content: seq<byte>)
    | Fatal(error: Error)
    | Abandoned

  /** How a selection step ends, stated on the decoded body alone. */
  datatype Step = Picked(name: string) | Halted(error: Error) | NoChoice

  /** Reference definition of one selection step on the body received
      from `url`: the body must decode, must not be null or empty, must
      offer an entry of type `tag`, and the first valid line picks. */
  function ExpectedStep(decoded: Option<Decoded>, url: string, tag: string, at: Stage,
                        lines: seq<string>): (r: Step)
    ensures r.Picked? <==> Resolve(Offered(decoded, tag), lines).Some?
    ensures r.Picked? ==> Some(r.name) == Resolve(Offered(decoded, tag), lines)
    ensures r.Halted? <==> Offered(decoded, tag) == []
  {
    match decoded
    case None => Halted(ParseFailure(url))
    case Some(listing) =>
      if IsEmptyListing(listing) then Halted(EmptyResponse(at))
      else
        var names := Filter(listing.entries, tag);
        if names == [] then Halted(NothingFound(at))
        else
          match Resolve(names, lines)
          case None => NoChoice
          case Some(name) => Picked(name)
  }

  /** Reference definition of the whole run: its outcome and the URLs it
      requests, in order. Each request happens only once the step before
      it has succeeded. */
  function ExpectedRun(token: string, serve: string -> Body, dirLines: seq<string>,
                       fileLines: seq<string>, destLine: Option<string>): (Outcome, seq<string>)
  {
    if token == "" then (Fatal(EmptyToken), [])
    else
      var rootUrl := RequestUrl(RootPath);
      match ExpectedStep(serve(rootUrl).decoded, rootUrl, "dir", Root, dirLines)
      case Halted(e) => (Fatal(e), [rootUrl])
      case NoChoice => (Abandoned, [rootUrl])
      case Picked(dir) =>
        var folderUrl := RequestUrl(FolderPath(dir));
        match ExpectedStep(serve(folderUrl).decoded, folderUrl, "file", Folder(dir), fileLines)
        case Halted(e) => (Fatal(e), [rootUrl, folderUrl])
        case NoChoice => (Abandoned, [rootUrl, folderUrl])
        case Picked(file) =>
          match destLine
          case None => (Abandoned, [rootUrl, folderUrl])
          case Some(typed) =>
            var contentUrl := RequestUrl(ContentPath(dir, file));
            (Saved(dir, file, Destination(typed, file), serve(contentUrl).bytes),
             [rootUrl, folderUrl, contentUrl])
  }

  /** The whole run. Each prompt reads from its own sequence of typed
      lines; the destination prompt reads one line, or `None` at end of
      input. `requests` lists the URLs requested, in order. */
  method Run(token: string, serve: string -> Body, dirLines: seq<string>,
             fileLines: seq<string>, destLine: Option<string>)
    returns (outcome: Outcome, requests: seq<string>)
    ensures (outcome, requests) == ExpectedRun(token, serve, dirLines, fileLines, destLine)
    ensures token == "" <==> outcome == Fatal(EmptyToken)
    ensures token == "" ==> requests == []
    ensures token != "" ==> 1 <= |requests| <= 3 && requests[0] == RequestUrl(RootPath)
    ensures token != "" && serve(RequestUrl(RootPath)).decoded.None? ==>
              outcome == Fatal(ParseFailure(RequestUrl(RootPath))) && |requests| == 1
    ensures token != "" && serve(RequestUrl(RootPath)).decoded.Some? &&
            IsEmptyListing(serve(RequestUrl(RootPath)).decoded.value) ==>
              outcome == Fatal(EmptyResponse(Root)) && |requests| == 1
    ensures |requests| >= 2 ==>
              && Resolve(Offered(serve(requests[0]).decoded, "dir"), dirLines).Some?
              && requests[1] == RequestUrl(FolderPath(Resolve(Offered(serve(requests[0]).decoded, "dir"), dirLines).value))
    ensures outcome == Abandoned ==>
              || FirstValid(dirLines, |Offered(serve(requests[0]).decoded, "dir")|).None?
              || FirstValid(fileLines, |Offered(serve(requests[1]).decoded, "file")|).None?
              || destLine.None?
    ensures outcome.Saved? ==>
              && requests == [RequestUrl(RootPath),
                              RequestUrl(FolderPath(outcome.dir)),
                              RequestUrl(ContentPath(outcome.dir, outcome.file))]
              && Some(outcome.dir) == Resolve(Offered(serve(requests[0]).decoded, "dir"), dirLines)
              && Some(outcome.file) == Resolve(Offered(serve(requests[1]).decoded, "file"), fileLines)
              && destLine.Some?
              && outcome.dest == Destination(destLine.value, outcome.file)
              && outcome.content == serve(requests[2]).bytes
  {
    var checked := CheckToken(token);
    if checked.Failure? {
      return Fatal(checked.error), [];
    }

    var rootUrl := RequestUrl(RootPath);
    requests := [rootUrl];
    var root := Interpret(rootUrl, JsonAccept, serve(rootUrl));
    if root.Failure? {
      return Fatal(root.error), requests;
    }
    var dirChoice := ChooseEntry(root.value.value, "dir", Root, dirLines);
    if dirChoice.Stopped? {
      return Fatal(dirChoice.error), requests;
    } else if dirChoice.OutOfInput? {
      return Abandoned, requests;
    }
    var dir := dirChoice.pick.name;
    assert ExpectedStep(serve(rootUrl).decoded, rootUrl, "dir", Root, dirLines) == Picked(dir);

    var folderUrl := RequestUrl(FolderPath(dir));
    requests := requests + [folderUrl];
    assert requests == [rootUrl, folderUrl];
    var folder := Interpret(folderUrl, JsonAccept, serve(folderUrl));
    if folder.Failure? {
      assert ExpectedStep(serve(folderUrl).decoded, folderUrl, "file", Folder(dir), fileLines) == Halted(folder.error);
      assert ExpectedRun(token, serve, dirLines, fileLines, destLine) == (Fatal(folder.error), [rootUrl, folderUrl]);
      return Fatal(folder.error), requests;
    }
    var fileChoice := ChooseEntry(folder.value.value, "file", Folder(dir), fileLines);
    var fileStep := ExpectedStep(serve(folderUrl).decoded, folderUrl, "file", Folder(dir), fileLines);
    if fileChoice.Stopped? {
      assert fileStep == Halted(fileChoice.error);
      assert ExpectedRun(token, serve, dirLines, fileLines, destLine) == (Fatal(fileChoice.error), requests);
      return Fatal(fileChoice.error), requests;
    } else if fileChoice.OutOfInput? {
      assert fileStep == NoChoice;
      assert ExpectedRun(token, serve, dirLines, fileLines, destLine) == (Abandoned, requests);
      return Abandoned, requests;
    }
    var file := fileChoice.pick.name;
    assert fileStep == Picked(file);

    if destLine.None? {
      assert ExpectedRun(token, serve, dirLines, fileLines, destLine) == (Abandoned, requests);
      return Abandoned, requests;
    }
    var dest := Destination(destLine.value, file);
    var contentUrl := RequestUrl(ContentPath(dir, file));
    requests := requests + [contentUrl];
    assert requests == [rootUrl, folderUrl, contentUrl];
    var content := Interpret(contentUrl, RawAccept, serve(contentUrl));
    outcome := Saved(dir, file, dest, content.value.content);
    assert ExpectedRun(token, serve, dirLines, fileLines, destLine) == (outcome, requests);
  }

  /** Progress: when the token is set, each listing offers a name picked by
      a typed line, and a destination line is typed, the run saves exactly
      that file with the bytes the content request returns. */
  lemma RunSavesWhenEveryStepSucceeds(token: string, serve: string -> Body, dirLines: seq<string>,
                                      fileLines: seq<string>, typed: string, dir: string, file: string)
    requires token != ""
    requires Resolve(Offered(serve(RequestUrl(RootPath)).decoded, "dir"), dirLines) == Some(dir)
    requires Resolve(Offered(serve(RequestUrl(FolderPath(dir))).decoded, "file"), fileLines) == Some(file)
    ensures ExpectedRun(token, serve, dirLines, fileLines, Some(typed)) ==
            (Saved(dir, file, Destination(typed, file), serve(RequestUrl(ContentPath(dir, file))).bytes),
             [RequestUrl(RootPath), RequestUrl(FolderPath(dir)), RequestUrl(ContentPath(dir, file))])
  {
  }

  /** A root listing with one folder and one file offers only the folder. */
  lemma RootListingScenario()
    ensures Filter([Entry("env", Some("dir")), Entry("readme.md", Some("file"))], "dir") == ["env"]
  {
  }

  /** On a one-entry menu the line "2" is turned away and the following
      "1" picks the entry. */
  lemma OneEntryMenuScenario()
    ensures Resolve(["env"], ["2", "1"]) == Some("env")
  {
  }
}
