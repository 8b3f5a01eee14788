/** The preview screen: it takes its markup from one of two process-wide
    handoff slots, wraps it in a responsive page, and lets the user request
    edits of the current screen from the edit service. The service's answer
    is an input (`EditResult`); the screen's React state is the fields of
    `PreviewSession`, and the two globals are the fields of `Handoff`. */
module Preview {
  import opened Wrappers
  import opened JsString

  const NO_HTML_MESSAGE := "No HTML content available"

  /** What the edit service is sent: the screen to edit and the trimmed prompt. */
  datatype EditRequest = EditRequest(screenId: string, userPrompt: string)

  /** How the edit call ends: the new markup and screen id, or a thrown error. */
  datatype EditResult = EditOk(html: string, screenId: string) | EditFail

  /** The two process-wide globals `generatedHtml` and `editedHtml`. The empty
      string stands for an unset global: both are falsy. */
  class Handoff {
    var generatedHtml: string
    var editedHtml: string

    /** At process start neither global holds markup. */
    constructor ()
      ensures generatedHtml == "" && editedHtml == ""
    {
      generatedHtml := "";
      editedHtml := "";
    }

    /** The generate screen stores freshly generated markup before navigating. */
    method WriteGenerated(html: string)
      modifies this`generatedHtml
      ensures generatedHtml == html
    {
      generatedHtml := html;
    }
  }

  /** `(screenId as string) || null`: a missing or empty route parameter
      gives no screen id; any other value is kept as it is. */
  function InitialScreenId(param: Option<string>): (id: Option<string>)
    ensures id.Some? <==> param.Some? && param.value != ""
    ensures id.Some? ==> id == param
    ensures id != Some("")
  {
    match param
    case Some(p) => if p != "" then Some(p) else None
    case None => None
  }

  /** The truthiness of the current screen id: null and "" are both falsy. */
  predicate HasScreenId(id: Option<string>) {
    id.Some? && id.value != ""
  }

  /** The guard of `handleEditSubmit`: a non-blank prompt and a truthy id. */
  predicate CanSubmit(prompt: string, id: Option<string>) {
    Trim(prompt) != "" && HasScreenId(id)
  }

  /** The request sent once the guard has passed. */
  function EditRequestFor(prompt: string, id: Option<string>): EditRequest
    requires HasScreenId(id)
  {
    EditRequest(id.value, Trim(prompt))
  }

  /** The guard rejects a prompt of white space alone, whatever the id. */
  lemma BlankPromptNeverSubmits(prompt: string, id: Option<string>)
    requires forall k :: 0 <= k < |prompt| ==> IsWhiteSpace(prompt[k])
    ensures !CanSubmit(prompt, id)
  {
    TrimIsEmptyIffBlank(prompt);
  }

  /** Past the guard, the prompt sent is non-blank, carries no surrounding
      white space, and trimming it again changes nothing. */
  lemma SubmittedPromptIsTrimmed(prompt: string, id: Option<string>)
    requires CanSubmit(prompt, id)
    ensures var p := EditRequestFor(prompt, id).userPrompt;
      && p != ""
      && !IsWhiteSpace(p[0]) && !IsWhiteSpace(p[|p| - 1])
      && Trim(p) == p
  {
    TrimKeepsNoOuterWhiteSpace(prompt);
    TrimIdempotent(prompt);
  }

  /** `Platform.OS === "ios" ? "44px" : "24px"`: room left for the status bar. */
  function StatusBarPadding(os: string): string {
    if os == "ios" then "44px" else "24px"
  }

  const PAGE_HEAD :=
    "\n    <!DOCTYPE html>\n    <html>\n      <head>\n"
    + "        <meta name=\"viewport\" content=\"width=device-width, initial-scale=1.0, maximum-scale=1.0, user-scalable=no\" />\n"
    + "        <style>\n          html, body {\n            margin: 0;\n            padding: 0;\n"
    + "            width: 100%;\n            height: 100%;\n"
    + "            font-family: -apple-system, BlinkMacSystemFont, 'Segoe UI', Roboto, Helvetica, Arial, sans-serif;\n"
    + "            background-color: #ffffff;\n            overflow: hidden;\n          }\n"
    + "          * {\n            box-sizing: border-box;\n          }\n          "

  const STYLE_END := "\n        </style>\n      </head>\n      <body>\n        "

  const PAGE_END := "\n      </body>\n    </html>\n  "

  /** The extra style rule emitted while the status bar is shown. */
  function StatusBarRule(showStatusBar: bool, os: string): string {
    if showStatusBar then
      "\n          body {\n            padding-top: " + StatusBarPadding(os) + ";\n          }\n          "
    else ""
  }

  /** What follows the head and precedes the markup: the optional
      status-bar rule and the end of the style block. */
  function StyleTail(showStatusBar: bool, os: string): string {
    StatusBarRule(showStatusBar, os) + STYLE_END
  }

  /** `htmlWrapper`: the page the web view is given. */
  function HtmlWrapper(currentHtml: string, showStatusBar: bool, os: string): string {
    PAGE_HEAD + StyleTail(showStatusBar, os) + currentHtml + PAGE_END
  }

  /** The offset at which the markup starts in the page. */
  function BodyOffset(showStatusBar: bool, os: string): nat {
    |PAGE_HEAD| + |StyleTail(showStatusBar, os)|
  }

  /** Indexing into a three-part concatenation. */
  lemma IndexInFrame(prefix: string, body: string, suffix: string, k: nat)
    requires k < |prefix|
    ensures (prefix + body + suffix)[k] == prefix[k]
  {
  }

  /** A body between a known prefix and a known suffix is determined. */
  lemma BodyInFrame(prefix: string, body: string, suffix: string)
    ensures var page := prefix + body + suffix;
      && |page| == |prefix| + |body| + |suffix|
      && page[|prefix|..|prefix| + |body|] == body
      && page[|prefix| + |body|..] == suffix
  {
    var page := prefix + body + suffix;
    assert page[|prefix|..] == body + suffix;
  }

  /** The page carries the markup verbatim as its body, at an offset that
      depends only on the status-bar setting and the platform, followed by
      the fixed closing tags. */
  lemma HtmlWrapperEmbedsMarkup(currentHtml: string, showStatusBar: bool, os: string)
    ensures var page, n := HtmlWrapper(currentHtml, showStatusBar, os), BodyOffset(showStatusBar, os);
      && |page| == n + |currentHtml| + |PAGE_END|
      && page[n..n + |currentHtml|] == currentHtml
      && page[n + |currentHtml|..] == PAGE_END
  {
    BodyInFrame(PAGE_HEAD + StyleTail(showStatusBar, os), currentHtml, PAGE_END);
  }

  /** The style tail tells the two status-bar settings apart at a fixed
      offset: the padding rule's `body` where otherwise `</style>` begins. */
  lemma StyleTailMarksStatusBar(showStatusBar: bool, os: string)
    ensures var tail := StyleTail(showStatusBar, os);
      |tail| > 11 && tail[11] == if showStatusBar then 'b' else 's'
  {
    var rule := StatusBarRule(showStatusBar, os);
    assert |STYLE_END| > 11 && STYLE_END[11] == 's';
    if showStatusBar {
      var open := "\n          body {\n            padding-top: ";
      assert |open| > 11 && open[11] == 'b';
      assert rule[11] == open[11];
    }
  }

  /** Distinct markup or status-bar settings give distinct pages, so the web
      view shows exactly the current state. */
  lemma HtmlWrapperInjective(h1: string, b1: bool, h2: string, b2: bool, os: string)
    requires HtmlWrapper(h1, b1, os) == HtmlWrapper(h2, b2, os)
    ensures h1 == h2 && b1 == b2
  {
    var t1, t2 := StyleTail(b1, os), StyleTail(b2, os);
    var k := |PAGE_HEAD| + 11;
    StyleTailMarksStatusBar(b1, os);
    StyleTailMarksStatusBar(b2, os);
    IndexInFrame(PAGE_HEAD + t1, h1, PAGE_END, k);
    IndexInFrame(PAGE_HEAD + t2, h2, PAGE_END, k);
    assert (PAGE_HEAD + t1)[k] == t1[11];
    assert (PAGE_HEAD + t2)[k] == t2[11];
    assert b1 == b2;
    BodyInFrame(PAGE_HEAD + t1, h1, PAGE_END);
    BodyInFrame(PAGE_HEAD + t2, h2, PAGE_END);
  }

  /** The preview screen's state. */
  class PreviewSession {
    const handoff: Handoff
    var currentHtml: string
    var currentScreenId: Option<string>
    var error: Option<string>
    var editPrompt: string
    var isEditing: bool
    var showEditModal: bool
    var showControls: bool
    var showStatusBar: bool

    /** The screen's initial state, given the `screenId` route parameter. */
    constructor (handoff: Handoff, screenIdParam: Option<string>)
      ensures this.handoff == handoff
      ensures currentScreenId == InitialScreenId(screenIdParam)
      ensures currentHtml == "" && error == None && editPrompt == ""
      ensures !isEditing && !showEditModal && !showControls && !showStatusBar
    {
      this.handoff := handoff;
      currentHtml := "";
      currentScreenId := InitialScreenId(screenIdParam);
      error := None;
      editPrompt := "";
      isEditing := false;
      showEditModal := false;
      showControls := false;
      showStatusBar := false;
    }

    /** The mount effect: take the markup from the slot `source` names, when
        that slot is set; otherwise record that there is nothing to show.
        Both slots are only read. */
    method Mount(source: string)
      modifies this`currentHtml, this`error
      ensures unchanged(handoff)
      ensures source == "generated" && handoff.generatedHtml != "" ==>
        currentHtml == handoff.generatedHtml && error == old(error)
      ensures ((source != "generated" || handoff.generatedHtml == "")
        && source == "edited" && handoff.editedHtml != "") ==>
        currentHtml == handoff.editedHtml && error == old(error)
      ensures ((source != "generated" || handoff.generatedHtml == "")
        && (source != "edited" || handoff.editedHtml == "")) ==>
        currentHtml == old(currentHtml) && error == Some(NO_HTML_MESSAGE)
    {
      if source == "generated" && handoff.generatedHtml != "" {
        currentHtml := handoff.generatedHtml;
      } else if source == "edited" && handoff.editedHtml != "" {
        currentHtml := handoff.editedHtml;
      } else {
        error := Some(NO_HTML_MESSAGE);
      }
    }

    /** The edit button opens the edit modal. */
    method OpenEditModal()
      modifies this`showEditModal
      ensures showEditModal
    {
      showEditModal := true;
    }

    /** The text input replaces the prompt. */
    method SetEditPrompt(text: string)
      modifies this`editPrompt
      ensures editPrompt == text
    {
      editPrompt := text;
    }

    /** A tap on the page shows or hides the floating controls. */
    method ToggleControls()
      modifies this`showControls
      ensures showControls == !old(showControls)
    {
      showControls := !showControls;
    }

    /** The status-bar button shows or hides the status bar. */
    method ToggleStatusBar()
      modifies this`showStatusBar
      ensures showStatusBar == !old(showStatusBar)
    {
      showStatusBar := !showStatusBar;
    }

    /** The first half of `handleEditSubmit`, up to the service call: when the
        guard passes, the screen enters its editing state, closes the modal
        and yields the request; otherwise nothing changes. */
    method BeginEdit() returns (request: Option<EditRequest>)
      modifies this`isEditing, this`showEditModal
      ensures request.Some? <==> CanSubmit(editPrompt, currentScreenId)
      ensures request.Some? ==>
        request.value == EditRequestFor(editPrompt, currentScreenId)
        && isEditing && !showEditModal
      ensures request.None? ==> unchanged(this)
    {
      if Trim(editPrompt) == "" || !HasScreenId(currentScreenId) {
        return None;
      }
      isEditing := true;
      showEditModal := false;
      request := Some(EditRequest(currentScreenId.value, Trim(editPrompt)));
    }

    /** The second half, once the service has answered: on success the new
        markup becomes current and is stored in the edited slot, the new id
        becomes current and the prompt is cleared; on failure all of those
        stay as they were. Either way editing ends. */
    method FinishEdit(result: EditResult)
      modifies this`currentHtml, this`currentScreenId, this`editPrompt, this`isEditing,
        handoff`editedHtml
      ensures !isEditing
      ensures handoff.generatedHtml == old(handoff.generatedHtml)
      ensures result.EditOk? ==>
        currentHtml == result.html && handoff.editedHtml == result.html
        && currentScreenId == Some(result.screenId) && editPrompt == ""
      ensures result.EditFail? ==>
        currentHtml == old(currentHtml) && handoff.editedHtml == old(handoff.editedHtml)
        && currentScreenId == old(currentScreenId) && editPrompt == old(editPrompt)
    {
      match result {
        case EditOk(html, screenId) =>
          currentHtml := html;
          currentScreenId := Some(screenId);
          handoff.editedHtml := html;
          editPrompt := "";
        case EditFail =>
      }
      isEditing := false;
    }

    /** `handleEditSubmit`, with `result` the service's answer to the request
        it sends (when it sends one). */
    method HandleEditSubmit(result: EditResult) returns (request: Option<EditRequest>)
      modifies this`currentHtml, this`currentScreenId, this`editPrompt, this`isEditing,
        this`showEditModal, handoff`editedHtml
      ensures request.Some? <==> old(CanSubmit(editPrompt, currentScreenId))
      ensures request.None? ==> unchanged(this) && unchanged(handoff)
      ensures request.Some? ==>
        && request.value == old(EditRequestFor(editPrompt, currentScreenId))
        && !isEditing && !showEditModal
        && handoff.generatedHtml == old(handoff.generatedHtml)
      ensures request.Some? && result.EditOk? ==>
        currentHtml == result.html && handoff.editedHtml == result.html
        && currentScreenId == Some(result.screenId) && editPrompt == ""
      ensures request.Some? && result.EditFail? ==>
        currentHtml == old(currentHtml) && handoff.editedHtml == old(handoff.editedHtml)
        && currentScreenId == old(currentScreenId) && editPrompt == old(editPrompt)
    {
      request := BeginEdit();
      if request.Some? {
        FinishEdit(result);
      }
    }
  }

  /** Generated markup reaches the preview screen through the generated slot,
      and reading it leaves the slot in place for a second screen. */
  method PreviewGenerated()
  {
    var slots := new Handoff();
    slots.WriteGenerated("<div>first</div>");
    var screen := new PreviewSession(slots, Some("abc123"));
    screen.Mount("generated");
    assert screen.currentHtml == "<div>first</div>" && screen.error == None;
    var other := new PreviewSession(slots, None);
    other.Mount("generated");
    assert other.currentHtml == screen.currentHtml && other.currentScreenId == None;
    var empty := new PreviewSession(slots, Some(""));
    empty.Mount("edited");
    assert empty.error == Some(NO_HTML_MESSAGE) && empty.currentScreenId == None;
  }

  /** An edit replaces the markup and id, and a screen opened on the edited
      slot afterwards shows the edited markup. */
  method EditThenReopen(slots: Handoff, screen: PreviewSession)
    requires screen.handoff == slots && screen.currentScreenId == Some("abc123")
    modifies slots, screen
  {
    var prompt := "make background blue";
    assert TrimStart(prompt) == prompt && TrimEnd(prompt) == prompt;
    screen.SetEditPrompt(prompt);
    var request := screen.HandleEditSubmit(EditOk("<div>blue</div>", "abc124"));
    assert request == Some(EditRequest("abc123", prompt));
    assert screen.currentHtml == "<div>blue</div>" && slots.editedHtml == "<div>blue</div>";
    assert screen.currentScreenId == Some("abc124") && screen.editPrompt == "";
    var again := new PreviewSession(slots, None);
    again.Mount("edited");
    assert again.currentHtml == "<div>blue</div>";
  }
}
