/**
 * The contract-chat flow: preparation of the request (deriving `isPdf`), the
 * fixed prompt template rendered as a sequence of text and media segments,
 * and the null-output check around the model call.
 */
module ChatFlow {
  import opened Wrappers
  import opened Text
  import opened Schemas

  /** The data-URI prefix that marks a contract as a PDF. */
  const PdfPrefix: string := "data:application/pdf"

  /** The message of the error thrown when the model yields no output. */
  const NullOutputMessage: string := "Failed to generate chat response, output was null."

  /**
   * A piece of the rendered prompt: literal text, or a media reference that
   * the template engine hands to the model as an attachment.
   */
  datatype Segment = Text(s: string) | Media(url: string)

  /**
   * The model behind the prompt, seen from the flow: given the rendered
   * prompt it either rejects (Failure, with what it threw), or resolves to a
   * possibly absent structured output.
   */
  type Model = seq<Segment> -> Result<Option<ChatWithContractsOutput>, Thrown>

  // ---------------------------------------------------------------- preparation

  /** `contentDataUri.startsWith('data:application/pdf')` */
  predicate IsPdfUri(uri: string) {
    StartsWith(uri, PdfPrefix)
  }

  /** The per-contract step of the preparation: spread the contract, then set `isPdf`. */
  function PrepareContract(c: Contract): (r: Contract)
    ensures r.fileName == c.fileName && r.contentDataUri == c.contentDataUri
    ensures r.isPdf == Some(IsPdfUri(c.contentDataUri))
  {
    c.(isPdf := Some(IsPdfUri(c.contentDataUri)))
  }

  /**
   * Maps every contract through the preparation step and keeps the rest of the
   * input. Whatever `isPdf` the caller supplied is overwritten.
   */
  function PreparePromptInput(input: ChatWithContractsInput): (r: ChatWithContractsInput)
    ensures r.userQuery == input.userQuery
    ensures |r.contracts| == |input.contracts|
    ensures forall i :: 0 <= i < |r.contracts| ==>
      && r.contracts[i].fileName == input.contracts[i].fileName
      && r.contracts[i].contentDataUri == input.contracts[i].contentDataUri
      && r.contracts[i].isPdf == Some(IsPdfUri(input.contracts[i].contentDataUri))
  {
    input.(contracts := seq(|input.contracts|, i requires 0 <= i < |input.contracts| =>
      PrepareContract(input.contracts[i])))
  }

  /** The derived flag looks at the first twenty characters of the data URI and nothing else. */
  lemma IsPdfDependsOnPrefixOnly(c: Contract, d: Contract)
    requires |c.contentDataUri| >= |PdfPrefix| && |d.contentDataUri| >= |PdfPrefix|
    requires c.contentDataUri[..|PdfPrefix|] == d.contentDataUri[..|PdfPrefix|]
    ensures PrepareContract(c).isPdf == PrepareContract(d).isPdf
  {
  }

  /** Any data URI that begins with the prefix is a PDF, whatever follows it. */
  lemma PdfPrefixMakesPdf(rest: string)
    ensures IsPdfUri(PdfPrefix + rest)
  {
    assert (PdfPrefix + rest)[..|PdfPrefix|] == PdfPrefix;
  }

  /** Preparing a prepared input changes nothing. */
  lemma PrepareIdempotent(input: ChatWithContractsInput)
    ensures PreparePromptInput(PreparePromptInput(input)) == PreparePromptInput(input)
  {
    var p := PreparePromptInput(input);
    assert PreparePromptInput(p).contracts == p.contracts;
  }

  // ---------------------------------------------------------------- the template

  const Instructions: string :=
    "You are a helpful" + " AI assistant specializing in contract analysis.\n"
    + "You have been provided with the following contract(s). Your task is to answer the user's question based *only* on the information contained within these documents.\n"
    + "If the information is not found in the contracts, state that explicitly. Do not make assumptions or use external knowledge.\n"
    + "\n"

  const ContractsIntro: string := "Here are" + " the contracts:\n"

  const NoContractsNotice: string :=
    "No contracts" + " have been provided. You can inform the user to upload contracts if their question implies they expect you to have some.\n"

  const HeaderLead: string := "Contract Filename: "
  const HeaderTail: string := "\nContract Content:\n"
  const BlockEnd: string := "---\n"

  /** The two header lines that open the block of the contract named `name`. */
  function Header(name: string): string {
    HeaderLead + name + HeaderTail
  }

  /** The text that stands in for the content of a contract that is not a PDF. */
  function Placeholder(name: string): string {
    "[Content for " + name + ". This is not a PDF. Display content as plain text if available.]\n"
  }

  /** The question line, the blank line and the response cue that close the prompt. */
  function QuestionTail(userQuery: string): string {
    "\nUser's Question: " + userQuery + "\n\nAI Response:"
  }

  /** Handlebars truthiness of `this.isPdf`: an absent flag is false. */
  predicate Flagged(c: Contract) {
    c.isPdf == Some(true)
  }

  /** The middle of a block: the media reference and a line break, or the placeholder. */
  function BlockBody(c: Contract): seq<Segment> {
    if Flagged(c) then [Media(c.contentDataUri), Text("\n")] else [Text(Placeholder(c.fileName))]
  }

  /** The `{{#each}}` body for one contract. */
  function ContractBlock(c: Contract): (r: seq<Segment>)
    ensures |r| >= 3 && r[0] == Text(Header(c.fileName)) && r[|r| - 1] == Text(BlockEnd)
  {
    [Text(Header(c.fileName))] + BlockBody(c) + [Text(BlockEnd)]
  }

  /** The `{{#each contracts}}` loop: the blocks of all contracts, in input order. */
  function Blocks(cs: seq<Contract>): seq<Segment> {
    if cs == [] then [] else ContractBlock(cs[0]) + Blocks(cs[1..])
  }

  /** The `{{#if contracts.length}} … {{else}} … {{/if}}` section. */
  function ContractSection(cs: seq<Contract>): seq<Segment> {
    if |cs| == 0 then [Text(NoContractsNotice)] else [Text(ContractsIntro)] + Blocks(cs)
  }

  /**
   * The whole prompt. Lines that hold only a block tag vanish from the output
   * (Handlebars' standalone-tag rule), so each part below ends with the
   * newline of the last line it prints.
   */
  function RenderPrompt(input: ChatWithContractsInput): (r: seq<Segment>)
    ensures |r| >= 3
    ensures r[0] == Text(Instructions)
    ensures r[|r| - 1] == Text(QuestionTail(input.userQuery))
  {
    [Text(Instructions)] + ContractSection(input.contracts) + [Text(QuestionTail(input.userQuery))]
  }

  // ---------------------------------------------------------------- reading a prompt back

  /** A segment that is a contract header: text framed by the header's lead and tail. */
  predicate IsHeader(g: Segment) {
    && g.Text?
    && |g.s| >= |HeaderLead| + |HeaderTail|
    && g.s[..|HeaderLead|] == HeaderLead
    && g.s[|g.s| - |HeaderTail|..] == HeaderTail
  }

  /** The file name a header segment announces. */
  function HeaderName(g: Segment): string
    requires IsHeader(g)
  {
    g.s[|HeaderLead|..|g.s| - |HeaderTail|]
  }

  /** The file names announced by the header segments of a prompt, in order. */
  function HeaderNames(p: seq<Segment>): seq<string> {
    if p == [] then []
    else (if IsHeader(p[0]) then [HeaderName(p[0])] else []) + HeaderNames(p[1..])
  }

  /** The URLs of the media segments of a prompt, in order. */
  function MediaUrls(p: seq<Segment>): seq<string> {
    if p == [] then []
    else (if p[0].Media? then [p[0].url] else []) + MediaUrls(p[1..])
  }

  /** The contracts' file names, in order. */
  function FileNames(cs: seq<Contract>): (r: seq<string>)
    ensures |r| == |cs| && forall i :: 0 <= i < |cs| ==> r[i] == cs[i].fileName
  {
    if cs == [] then [] else [cs[0].fileName] + FileNames(cs[1..])
  }

  /** The data URIs of the contracts whose `isPdf` flag is set, in order. */
  function FlaggedUris(cs: seq<Contract>): seq<string> {
    if cs == [] then [] else (if Flagged(cs[0]) then [cs[0].contentDataUri] else []) + FlaggedUris(cs[1..])
  }

  // ---------------------------------------------------------------- properties of the template

  lemma {:induction false} HeaderNamesAppend(a: seq<Segment>, b: seq<Segment>)
    ensures HeaderNames(a + b) == HeaderNames(a) + HeaderNames(b)
  {
    if a != [] {
      assert (a + b)[0] == a[0];
      assert (a + b)[1..] == a[1..] + b;
      HeaderNamesAppend(a[1..], b);
    } else {
      assert a + b == b;
    }
  }

  lemma {:induction false} MediaUrlsAppend(a: seq<Segment>, b: seq<Segment>)
    ensures MediaUrls(a + b) == MediaUrls(a) + MediaUrls(b)
  {
    if a != [] {
      assert (a + b)[0] == a[0];
      assert (a + b)[1..] == a[1..] + b;
      MediaUrlsAppend(a[1..], b);
    } else {
      assert a + b == b;
    }
  }

  /** What a single segment contributes to the two read-back lists. */
  lemma ReadBackSingle(g: Segment)
    ensures HeaderNames([g]) == if IsHeader(g) then [HeaderName(g)] else []
    ensures MediaUrls([g]) == if g.Media? then [g.url] else []
  {
    assert [g][1..] == [];
  }

  /** A header segment announces exactly the name it was built from. */
  lemma HeaderRoundTrip(name: string)
    ensures IsHeader(Text(Header(name))) && HeaderName(Text(Header(name))) == name
  {
    var h := Header(name);
    assert h[..|HeaderLead|] == HeaderLead;
    assert h[|h| - |HeaderTail|..] == HeaderTail;
    assert h[|HeaderLead|..|h| - |HeaderTail|] == name;
  }

  /** The first characters of the fixed texts, which tell them apart from each other. */
  lemma FirstCharacters(name: string, query: string)
    ensures Instructions[0] == 'Y' && ContractsIntro[0] == 'H' && NoContractsNotice[0] == 'N'
    ensures Header(name)[0] == 'C' && Placeholder(name)[0] == '[' && QuestionTail(query)[0] == '\n'
  {
  }

  /** Text whose first character differs from the header's cannot be a header. */
  lemma NotHeaderByFirstChar(t: string)
    requires t == [] || t[0] != 'C'
    ensures !IsHeader(Text(t))
  {
    if |t| >= |HeaderLead| {
      assert t[..|HeaderLead|][0] != HeaderLead[0];
    }
  }

  /** A block announces exactly its own contract. */
  lemma BlockHeaderNames(c: Contract)
    ensures HeaderNames(ContractBlock(c)) == [c.fileName]
  {
    var h, m, e := [Text(Header(c.fileName))], BlockBody(c), [Text(BlockEnd)];
    FirstCharacters(c.fileName, []);
    HeaderNamesAppend(h + m, e);
    HeaderNamesAppend(h, m);
    HeaderRoundTrip(c.fileName);
    ReadBackSingle(Text(Header(c.fileName)));
    NotHeaderByFirstChar(BlockEnd);
    ReadBackSingle(Text(BlockEnd));
    if Flagged(c) {
      HeaderNamesAppend([Media(c.contentDataUri)], [Text("\n")]);
      ReadBackSingle(Media(c.contentDataUri));
      NotHeaderByFirstChar("\n");
      ReadBackSingle(Text("\n"));
    } else {
      NotHeaderByFirstChar(Placeholder(c.fileName));
      ReadBackSingle(Text(Placeholder(c.fileName)));
    }
  }

  /** A block attaches its contract's data URI as media exactly when the contract is flagged. */
  lemma BlockMediaUrls(c: Contract)
    ensures MediaUrls(ContractBlock(c)) == if Flagged(c) then [c.contentDataUri] else []
  {
    var h, m, e := [Text(Header(c.fileName))], BlockBody(c), [Text(BlockEnd)];
    MediaUrlsAppend(h + m, e);
    MediaUrlsAppend(h, m);
    ReadBackSingle(Text(Header(c.fileName)));
    ReadBackSingle(Text(BlockEnd));
    if Flagged(c) {
      MediaUrlsAppend([Media(c.contentDataUri)], [Text("\n")]);
      ReadBackSingle(Media(c.contentDataUri));
      ReadBackSingle(Text("\n"));
    } else {
      ReadBackSingle(Text(Placeholder(c.fileName)));
    }
  }

  /**
   * Each block announces its contract once, and holds the contract's media
   * reference exactly when `isPdf` is set and its placeholder exactly when it
   * is not: never both.
   */
  lemma BlockContent(c: Contract)
    ensures HeaderNames(ContractBlock(c)) == [c.fileName]
    ensures MediaUrls(ContractBlock(c)) == if Flagged(c) then [c.contentDataUri] else []
    ensures (Media(c.contentDataUri) in ContractBlock(c)) <==> Flagged(c)
    ensures (Text(Placeholder(c.fileName)) in ContractBlock(c)) <==> !Flagged(c)
  {
    BlockHeaderNames(c);
    BlockMediaUrls(c);
    var p := Placeholder(c.fileName);
    if Flagged(c) {
      FirstCharacters(c.fileName, []);
      assert Text(p) != Text(Header(c.fileName)) && Text(p) != Text("\n") && Text(p) != Text(BlockEnd);
    }
  }

  /** The `{{#each}}` loop announces every contract once, in input order. */
  lemma {:induction false} BlocksHeaders(cs: seq<Contract>)
    ensures HeaderNames(Blocks(cs)) == FileNames(cs)
  {
    if cs != [] {
      BlockHeaderNames(cs[0]);
      BlocksHeaders(cs[1..]);
      HeaderNamesAppend(ContractBlock(cs[0]), Blocks(cs[1..]));
    }
  }

  /** The `{{#each}}` loop references as media exactly the flagged contracts, in input order. */
  lemma {:induction false} BlocksMedia(cs: seq<Contract>)
    ensures MediaUrls(Blocks(cs)) == FlaggedUris(cs)
  {
    if cs != [] {
      BlockMediaUrls(cs[0]);
      BlocksMedia(cs[1..]);
      MediaUrlsAppend(ContractBlock(cs[0]), Blocks(cs[1..]));
    }
  }

  /** The notice is no segment of any contract block. */
  lemma {:induction false} NoticeNotInBlocks(cs: seq<Contract>)
    ensures Text(NoContractsNotice) !in Blocks(cs)
  {
    if cs != [] {
      var c := cs[0];
      FirstCharacters(c.fileName, []);
      NoticeNotInBlocks(cs[1..]);
    }
  }

  /**
   * The prompt announces the contracts of the input, one header per contract
   * in input order (so none at all for an empty list), and references as media
   * exactly the data URIs of the flagged contracts.
   */
  lemma PromptContracts(input: ChatWithContractsInput)
    ensures HeaderNames(RenderPrompt(input)) == FileNames(input.contracts)
    ensures MediaUrls(RenderPrompt(input)) == FlaggedUris(input.contracts)
  {
    var cs := input.contracts;
    var head := [Text(Instructions)];
    var section := ContractSection(cs);
    var tail := [Text(QuestionTail(input.userQuery))];
    NotHeaderByFirstChar(Instructions);
    NotHeaderByFirstChar(QuestionTail(input.userQuery));
    ReadBackSingle(head[0]);
    ReadBackSingle(tail[0]);
    HeaderNamesAppend(head + section, tail);
    HeaderNamesAppend(head, section);
    MediaUrlsAppend(head + section, tail);
    MediaUrlsAppend(head, section);
    if cs == [] {
      NotHeaderByFirstChar(NoContractsNotice);
      ReadBackSingle(Text(NoContractsNotice));
    } else {
      NotHeaderByFirstChar(ContractsIntro);
      ReadBackSingle(Text(ContractsIntro));
      HeaderNamesAppend([Text(ContractsIntro)], Blocks(cs));
      MediaUrlsAppend([Text(ContractsIntro)], Blocks(cs));
      BlocksHeaders(cs);
      BlocksMedia(cs);
    }
    assert HeaderNames(section) == FileNames(cs);
    assert MediaUrls(section) == FlaggedUris(cs);
  }

  /** The "no contracts" notice appears exactly when the contract list is empty. */
  lemma NoticeIffNoContracts(input: ChatWithContractsInput)
    ensures Text(NoContractsNotice) in RenderPrompt(input) <==> input.contracts == []
  {
    var cs := input.contracts;
    FirstCharacters([], input.userQuery);
    if cs != [] {
      NoticeNotInBlocks(cs);
      assert RenderPrompt(input) == [Text(Instructions), Text(ContractsIntro)] + Blocks(cs)
        + [Text(QuestionTail(input.userQuery))];
    }
  }

  /**
   * After preparation, the prompt's media references are exactly the data URIs
   * that start with the PDF prefix, in input order.
   */
  lemma {:induction false} PreparedFlags(cs: seq<Contract>, prepared: seq<Contract>)
    requires |prepared| == |cs|
    requires forall i :: 0 <= i < |cs| ==> prepared[i] == PrepareContract(cs[i])
    ensures FlaggedUris(prepared) == PdfUris(cs)
  {
    if cs != [] {
      PreparedFlags(cs[1..], prepared[1..]);
    }
  }

  /** The data URIs of the contracts that start with the PDF prefix, in order. */
  function PdfUris(cs: seq<Contract>): seq<string> {
    if cs == [] then [] else (if IsPdfUri(cs[0].contentDataUri) then [cs[0].contentDataUri] else []) + PdfUris(cs[1..])
  }

  // ---------------------------------------------------------------- the flow

  /**
   * Renders the prompt, calls the model, and turns a missing output into the
   * flow's own error. A rejection of the call propagates as it is.
   */
  function ChatWithContractsFlow(input: ChatWithContractsInput, model: Model): (r: Result<ChatWithContractsOutput, Thrown>)
    ensures r.Success? <==> model(RenderPrompt(input)).Success? && model(RenderPrompt(input)).value.Some?
    ensures r.Success? ==> model(RenderPrompt(input)) == Success(Some(r.value))
    ensures model(RenderPrompt(input)) == Success(None) ==> r == Failure(Error(NullOutputMessage))
    ensures model(RenderPrompt(input)).Failure? ==> r == Failure(model(RenderPrompt(input)).error)
  {
    match model(RenderPrompt(input))
    case Failure(e) => Failure(e)
    case Success(None) => Failure(Error(NullOutputMessage))
    case Success(Some(output)) => Success(output)
  }

  /**
   * The exported entry point: prepare the input, then run the flow on it. The
   * model sees the prompt of the prepared input; a missing output becomes the
   * null-output error, an output is returned as it is, a rejection propagates.
   */
  function ChatWithContracts(input: ChatWithContractsInput, model: Model): (r: Result<ChatWithContractsOutput, Thrown>)
    ensures var answer := model(RenderPrompt(PreparePromptInput(input)));
      && (answer == Success(None) ==> r == Failure(Error(NullOutputMessage)))
      && (answer.Success? && answer.value.Some? ==> r == Success(answer.value.value))
      && (answer.Failure? ==> r == Failure(answer.error))
  {
    ChatWithContractsFlow(PreparePromptInput(input), model)
  }

  /**
   * What the model is shown for a request: one header per contract of the
   * request, in order, media references for exactly the PDF data URIs, and the
   * request's question at the end; the "no contracts" notice only for an empty list.
   */
  lemma ChatPrompt(input: ChatWithContractsInput)
    ensures HeaderNames(RenderPrompt(PreparePromptInput(input))) == FileNames(input.contracts)
    ensures MediaUrls(RenderPrompt(PreparePromptInput(input))) == PdfUris(input.contracts)
    ensures Last(RenderPrompt(PreparePromptInput(input))) == Text(QuestionTail(input.userQuery))
    ensures Text(NoContractsNotice) in RenderPrompt(PreparePromptInput(input)) <==> input.contracts == []
  {
    var prepared := PreparePromptInput(input);
    PromptContracts(prepared);
    NoticeIffNoContracts(prepared);
    assert FileNames(prepared.contracts) == FileNames(input.contracts);
    PreparedFlags(input.contracts, prepared.contracts);
  }

  /** A single PDF contract is announced by name and attached as media, not as a placeholder. */
  lemma LeasePdfScenario(payload: string, question: string)
    ensures var input := ChatWithContractsInput(question,
        [Contract("lease.pdf", PdfPrefix + ";base64," + payload, None)]);
      var p := RenderPrompt(PreparePromptInput(input));
      && HeaderNames(p) == ["lease.pdf"]
      && MediaUrls(p) == [PdfPrefix + ";base64," + payload]
      && Text(NoContractsNotice) !in p
  {
    var uri := PdfPrefix + ";base64," + payload;
    var input := ChatWithContractsInput(question, [Contract("lease.pdf", uri, None)]);
    assert uri == PdfPrefix + (";base64," + payload);
    PdfPrefixMakesPdf(";base64," + payload);
    ChatPrompt(input);
    assert FileNames(input.contracts) == ["lease.pdf"];
    assert PdfUris(input.contracts) == [uri] by {
      assert input.contracts[1..] == [];
    }
  }

  function Last(p: seq<Segment>): Segment
    requires p != []
  {
    p[|p| - 1]
  }
}
