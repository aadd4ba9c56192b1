/** The chat page: the text taken from the uploaded PDFs, one question-and-answer turn
    (`user_input`) with its pre-flight checks, and the sidebar's key panel. The retrieval
    pipeline and the language model are one oracle, `answerer`, that maps the PDF text,
    the question and the key to an answer or to the message of the exception it raised. */
module ChatSession {
  import opened Text
  import opened Wrappers
  import opened Keywords
  import opened ApiKey
  import opened Transcript

  /** An uploaded PDF: its file name and what `extract_text()` gives for each page (`None`
      where it gives nothing). */
  datatype Pdf = Pdf(name: string, pages: seq<Option<string>>)

  /** What a page adds to the text: its extracted text, or nothing. */
  function PageText(page: Option<string>): string
  {
    page.GetOr("")
  }

  /** The page texts of one PDF, in page order. */
  function PageTexts(pages: seq<Option<string>>): (ts: seq<string>)
    ensures |ts| == |pages| && forall i :: 0 <= i < |pages| ==> ts[i] == PageText(pages[i])
  {
    seq(|pages|, i requires 0 <= i < |pages| => PageText(pages[i]))
  }

  function PdfText(d: Pdf): string
  {
    Concat(PageTexts(d.pages))
  }

  /** The texts of the PDFs, in upload order. */
  function PdfTexts(ds: seq<Pdf>): (ts: seq<string>)
    ensures |ts| == |ds| && forall i :: 0 <= i < |ds| ==> ts[i] == PdfText(ds[i])
  {
    seq(|ds|, i requires 0 <= i < |ds| => PdfText(ds[i]))
  }

  /** The text of all uploaded PDFs: every page of every PDF, one after the other. */
  function AllText(ds: seq<Pdf>): string
  {
    Concat(PdfTexts(ds))
  }

  lemma ConcatSnoc(ss: seq<string>, s: string)
    ensures Concat(ss + [s]) == Concat(ss) + s
  {
    assert (ss + [s])[..|ss|] == ss;
  }

  /** `get_pdf_text`: the loop over the PDFs and their pages that appends each page's text. */
  method GetPdfText(ds: seq<Pdf>) returns (text: string)
    ensures text == AllText(ds)
  {
    text := "";
    for i := 0 to |ds|
      invariant text == AllText(ds[..i])
    {
      var pages := ds[i].pages;
      for j := 0 to |pages|
        invariant text == AllText(ds[..i]) + Concat(PageTexts(pages[..j]))
      {
        PageTextsStep(pages, j);
        match pages[j]
        case Some(t) =>
          if t != "" {
            text := text + t;
          }
        case None =>
      }
      AllTextStep(ds, i);
    }
    assert ds[..|ds|] == ds;
  }

  lemma PageTextsStep(pages: seq<Option<string>>, j: nat)
    requires j < |pages|
    ensures Concat(PageTexts(pages[..j + 1])) == Concat(PageTexts(pages[..j])) + PageText(pages[j])
  {
    assert PageTexts(pages[..j + 1]) == PageTexts(pages[..j]) + [PageText(pages[j])];
    ConcatSnoc(PageTexts(pages[..j]), PageText(pages[j]));
  }

  lemma AllTextStep(ds: seq<Pdf>, i: nat)
    requires i < |ds|
    ensures AllText(ds[..i + 1]) == AllText(ds[..i]) + Concat(PageTexts(ds[i].pages[..|ds[i].pages|]))
  {
    assert ds[i].pages[..|ds[i].pages|] == ds[i].pages;
    assert PdfTexts(ds[..i + 1]) == PdfTexts(ds[..i]) + [PdfText(ds[i])];
    ConcatSnoc(PdfTexts(ds[..i]), PdfText(ds[i]));
  }

  /** Uploading more PDFs appends their text. */
  lemma AllTextAppend(a: seq<Pdf>, b: seq<Pdf>)
    ensures AllText(a + b) == AllText(a) + AllText(b)
  {
    assert PdfTexts(a + b) == PdfTexts(a) + PdfTexts(b);
    ConcatAppend(PdfTexts(a), PdfTexts(b));
  }

  /** A PDF none of whose pages yields text (a scanned document) adds nothing. */
  lemma {:induction false} TextlessPdfAddsNothing(ds: seq<Pdf>, d: Pdf)
    requires forall i :: 0 <= i < |d.pages| ==> PageText(d.pages[i]) == ""
    ensures AllText(ds + [d]) == AllText(ds)
  {
    EmptyPagesText(d.pages);
    assert PdfTexts(ds + [d]) == PdfTexts(ds) + [PdfText(d)];
    ConcatSnoc(PdfTexts(ds), PdfText(d));
  }

  lemma {:induction false} EmptyPagesText(pages: seq<Option<string>>)
    requires forall i :: 0 <= i < |pages| ==> PageText(pages[i]) == ""
    ensures Concat(PageTexts(pages)) == ""
  {
    if |pages| > 0 {
      var n := |pages| - 1;
      EmptyPagesText(pages[..n]);
      assert PageTexts(pages) == PageTexts(pages[..n]) + [PageText(pages[n])];
      ConcatSnoc(PageTexts(pages[..n]), PageText(pages[n]));
    }
  }

  /** The file names, in upload order (`[pdf.name for pdf in pdf_docs]`). */
  function Names(ds: seq<Pdf>): (ns: seq<string>)
    ensures |ns| == |ds| && forall i :: 0 <= i < |ds| ==> ns[i] == ds[i].name
  {
    seq(|ds|, i requires 0 <= i < |ds| => ds[i].name)
  }

  const InvalidKeyError: string := "❌ Invalid or missing Google API key. Please enter a valid API key in the sidebar."
  const UploadWarning: string := "⚠️ Please upload PDF files."
  /** One message; it is written as two literals so that proofs can read its characters. */
  const AuthFailedError: string := "❌ API key authentication failed." + " Please check your Google API key."
  const ErrorPrefix: string := "❌ An error occurred: "

  /** The exception handler's test: the upper-cased message mentions "API_KEY" or
      "AUTHENTICATION". */
  predicate IsAuthError(message: string)
  {
    Contains(ToUpper(message), "API_KEY") || Contains(ToUpper(message), "AUTHENTICATION")
  }

  /** The error shown for an exception with message `message`: the authentication message
      exactly when the message is about the key, and otherwise the message itself after a
      fixed prefix. */
  function ErrorMessage(message: string): (shown: string)
    ensures shown == AuthFailedError <==> IsAuthError(message)
    ensures !IsAuthError(message) ==> ErrorPrefix <= shown && shown[|ErrorPrefix|..] == message
  {
    if IsAuthError(message) then AuthFailedError
    else
      assert (ErrorPrefix + message)[3] == ErrorPrefix[3] == 'n';
      assert AuthFailedError[3] == 'P';
      ErrorPrefix + message
  }

  /** Upper-casing a concatenation upper-cases each part. */
  lemma ToUpperAppend(a: string, b: string)
    ensures ToUpper(a + b) == ToUpper(a) + ToUpper(b)
  {
  }

  /** The test ignores case: a message mentioning "api_key" or "Authentication" anywhere is
      treated as an authentication failure. */
  lemma AuthTestIgnoresCase(a: string, b: string)
    ensures IsAuthError(a + "api_key" + b)
    ensures IsAuthError(a + "Authentication" + b)
  {
    ToUpperAppend(a + "api_key", b);
    ToUpperAppend(a, "api_key");
    assert ToUpper("api_key") == "API_KEY";
    ContainsInfix(ToUpper(a), "API_KEY", ToUpper(b));
    ToUpperAppend(a + "Authentication", b);
    ToUpperAppend(a, "Authentication");
    assert ToUpper("Authentication") == "AUTHENTICATION";
    ContainsInfix(ToUpper(a), "AUTHENTICATION", ToUpper(b));
  }

  /** A message that does not mention the key is shown in full. */
  lemma OtherErrorsShown(message: string)
    requires !IsAuthError(message)
    ensures Contains(ErrorMessage(message), message)
  {
    assert ErrorMessage(message) == ErrorPrefix + message + "";
    ContainsInfix(ErrorPrefix, message, "");
  }

  /** What the answerer does: answer, or raise an exception with a message. */
  datatype Reply = Answer(text: string) | Raised(message: string)

  /** What the page shows. `Exchange` shows the question and the answer and offers
      the transcript of the whole conversation for download. */
  datatype Outcome =
    | Canned(question: string, response: string)
    | Exchange(question: string, answer: string, download: string)
    | ErrorBox(message: string)
    | WarningBox(message: string)
    | SuccessBox(message: string)

  /** The model names recorded with an exchange. */
  const CannedModel: string := "Assistant"
  const AnswerModel: string := "Google AI"

  /** One call of `user_input`: the conversation afterwards and what is shown. The keyword
      interceptor comes first, then the key check, then the upload check; only a canned
      reply or an answer is recorded, stamped with `now`. */
  function Turn(history: seq<Chat>, question: string, ds: seq<Pdf>, key: string,
                clock: Clock, draw: nat, now: string,
                answerer: (string, string, string) -> Reply): (r: (seq<Chat>, Outcome))
    ensures history <= r.0 && |r.0| <= |history| + 1
  {
    var special := HandleSpecialKeywords(question, clock, draw);
    if special.0 then
      var response := special.1.GetOr("");
      (history + [Chat(question, response, CannedModel, now, "")], Canned(question, response))
    else if !ValidateApiKey(key) then
      (history, ErrorBox(InvalidKeyError))
    else if ds == [] then
      (history, WarningBox(UploadWarning))
    else match answerer(AllText(ds), question, key)
      case Raised(m) => (history, ErrorBox(ErrorMessage(m)))
      case Answer(a) =>
        var h := history + [Chat(question, a, AnswerModel, now, Join(", ", Names(ds)))];
        (h, Exchange(question, a, Export(h)))
  }

  /** A question the interceptor recognises is answered and recorded even without a valid
      key and without any PDF, and the answerer is not consulted. */
  lemma CannedReplyRecorded(history: seq<Chat>, question: string, ds: seq<Pdf>, key: string,
                            clock: Clock, draw: nat, now: string,
                            answerer: (string, string, string) -> Reply)
    requires HandleSpecialKeywords(question, clock, draw).0
    ensures var response := HandleSpecialKeywords(question, clock, draw).1.value;
      Turn(history, question, ds, key, clock, draw, now, answerer)
        == (history + [Chat(question, response, CannedModel, now, "")], Canned(question, response))
  {
  }

  /** A question containing "hi" gets a greeting, recorded in the conversation, whatever
      the key and the uploads. */
  lemma GreetingNeedsNoKey(history: seq<Chat>, question: string, ds: seq<Pdf>, key: string,
                           clock: Clock, draw: nat, now: string,
                           answerer: (string, string, string) -> Reply)
    requires Contains(ToLower(question), "hi")
    ensures var r := Turn(history, question, ds, key, clock, draw, now, answerer);
      && r.1.Canned? && IsResponseOf(r.1.response, HelloResponses, clock)
      && r.0 == history + [Chat(question, r.1.response, CannedModel, now, "")]
  {
    GreetingWins(question, clock, draw);
    CannedReplyRecorded(history, question, ds, key, clock, draw, now, answerer);
  }

  /** Past the interceptor, an invalid key stops the turn with an error and records
      nothing, whatever was uploaded. */
  lemma InvalidKeyRecordsNothing(history: seq<Chat>, question: string, ds: seq<Pdf>, key: string,
                                 clock: Clock, draw: nat, now: string,
                                 answerer: (string, string, string) -> Reply)
    requires !HandleSpecialKeywords(question, clock, draw).0 && !ValidateApiKey(key)
    ensures Turn(history, question, ds, key, clock, draw, now, answerer) == (history, ErrorBox(InvalidKeyError))
  {
  }

  /** With a valid key but nothing uploaded, the turn warns and records nothing. */
  lemma NoUploadRecordsNothing(history: seq<Chat>, question: string, key: string,
                               clock: Clock, draw: nat, now: string,
                               answerer: (string, string, string) -> Reply)
    requires !HandleSpecialKeywords(question, clock, draw).0 && ValidateApiKey(key)
    ensures Turn(history, question, [], key, clock, draw, now, answerer) == (history, WarningBox(UploadWarning))
  {
  }

  /** An answer is recorded under "Google AI" with the PDF names joined by ", ", and the
      download offered is the transcript of the whole conversation, ending with it. */
  lemma AnswerRecorded(history: seq<Chat>, question: string, ds: seq<Pdf>, key: string,
                       clock: Clock, draw: nat, now: string,
                       answerer: (string, string, string) -> Reply)
    requires !HandleSpecialKeywords(question, clock, draw).0 && ValidateApiKey(key) && ds != []
    requires answerer(AllText(ds), question, key).Answer?
    ensures var a := answerer(AllText(ds), question, key).text;
      var c := Chat(question, a, AnswerModel, now, Join(", ", Names(ds)));
      var r := Turn(history, question, ds, key, clock, draw, now, answerer);
      && r.0 == history + [c]
      && r.1 == Exchange(question, a, Export(history) + Block(c))
  {
    var a := answerer(AllText(ds), question, key).text;
    ExportSnoc(history, Chat(question, a, AnswerModel, now, Join(", ", Names(ds))));
  }

  /** The PDF names of a recorded answer start with the first file's name. */
  lemma AnswerNamesFirstPdf(ds: seq<Pdf>)
    requires ds != []
    ensures ds[0].name <= Join(", ", Names(ds))
  {
    JoinStartsWithFirst(", ", Names(ds));
  }

  /** An exception from the answerer is reported and records nothing. */
  lemma FailureRecordsNothing(history: seq<Chat>, question: string, ds: seq<Pdf>, key: string,
                              clock: Clock, draw: nat, now: string,
                              answerer: (string, string, string) -> Reply)
    requires !HandleSpecialKeywords(question, clock, draw).0 && ValidateApiKey(key) && ds != []
    requires answerer(AllText(ds), question, key).Raised?
    ensures var m := answerer(AllText(ds), question, key).message;
      Turn(history, question, ds, key, clock, draw, now, answerer) == (history, ErrorBox(ErrorMessage(m)))
  {
  }

  /** A turn records something exactly when it shows a canned reply or an answer. */
  lemma RecordsIffReplied(history: seq<Chat>, question: string, ds: seq<Pdf>, key: string,
                          clock: Clock, draw: nat, now: string,
                          answerer: (string, string, string) -> Reply)
    ensures var r := Turn(history, question, ds, key, clock, draw, now, answerer);
      (|r.0| == |history| + 1 <==> r.1.Canned? || r.1.Exchange?)
      && (r.0 == history <==> r.1.ErrorBox? || r.1.WarningBox?)
  {
  }

  /** The notice of the "Process PDFs" button, given the uploaded files and whether
      processing them failed, and with what message. */
  function ProcessNotice(key: string, ds: seq<Pdf>, failure: Option<string>): (o: Outcome)
    ensures o.ErrorBox? <==> !ValidateApiKey(key) || (ds != [] && failure.Some?)
    ensures o.WarningBox? <==> ValidateApiKey(key) && ds == []
    ensures o.SuccessBox? <==> ValidateApiKey(key) && ds != [] && failure.None?
  {
    if !ValidateApiKey(key) then ErrorBox("❌ Please enter a valid API key first")
    else if ds != [] then
      match failure
      case Some(m) => ErrorBox("❌ Error processing PDFs: " + m)
      case None => SuccessBox("✅ PDFs processed successfully!")
    else WarningBox("Please upload PDF files first.")
  }

  /** The state the chat page keeps between runs: the conversation and the key last typed
      in the sidebar. */
  class Session {
    var conversationHistory: seq<Chat>
    var userApiKey: string

    /** A fresh session: no conversation, no key. */
    constructor()
      ensures conversationHistory == [] && userApiKey == ""
    {
      conversationHistory := [];
      userApiKey := "";
    }

    /** The key panel of `run_chatbot`: reports on the configured and typed keys, stores
        the typed key, and returns the key the chat will use. */
    method KeyPanel(config: Option<string>, typed: string) returns (msgs: seq<string>, key: string)
      modifies this
      ensures msgs == SidebarMessages(config, old(userApiKey), typed)
      ensures key == SelectApiKey(config, typed)
      ensures userApiKey == typed && conversationHistory == old(conversationHistory)
    {
      var configKey := "";
      var badge: seq<string> := [];
      match config {
        case Some(c) =>
          if ValidateApiKey(c) {
            configKey := c;
            badge := [ConfigValidBadge];
          }
        case None =>
      }
      var current := if configKey != "" then configKey else userApiKey;
      var warning: seq<string> := [];
      if !ValidateApiKey(current) {
        warning := [InvalidKeyWarning];
      }
      if typed != userApiKey {
        userApiKey := typed;
      }
      key := if configKey != "" then configKey else typed;
      var status := if ValidateApiKey(key) then [KeyReadyBadge] else [EnterKeyError, GetKeyInfo];
      msgs := badge + warning + status;
    }

    /** `user_input`: runs one turn against the session's conversation. */
    method UserInput(question: string, ds: seq<Pdf>, key: string, clock: Clock, draw: nat,
                     now: string, answerer: (string, string, string) -> Reply)
      returns (shown: Outcome)
      modifies this
      ensures (conversationHistory, shown)
        == Turn(old(conversationHistory), question, ds, key, clock, draw, now, answerer)
      ensures userApiKey == old(userApiKey)
    {
      var special := HandleSpecialKeywords(question, clock, draw);
      if special.0 {
        var response := special.1.GetOr("");
        conversationHistory := conversationHistory + [Chat(question, response, CannedModel, now, "")];
        return Canned(question, response);
      }
      if !ValidateApiKey(key) {
        return ErrorBox(InvalidKeyError);
      }
      if ds == [] {
        return WarningBox(UploadWarning);
      }
      var text := GetPdfText(ds);
      match answerer(text, question, key) {
        case Raised(m) =>
          shown := ErrorBox(ErrorMessage(m));
        case Answer(a) =>
          conversationHistory := conversationHistory + [Chat(question, a, AnswerModel, now, Join(", ", Names(ds)))];
          var download := BuildExport(conversationHistory);
          shown := Exchange(question, a, download);
      }
    }
  }
}
