/**
 * The text terminal of the frontend (`ChatInterface` in
 * frontend/app/page.tsx): an ordered message log, the `initialized`,
 * `interviewInitialized` and `previousMode` flags, the effects that reset or
 * seed the log, and the handlers that talk to the backend. Every backend
 * answer is an input; the `interview_intro` storage slot is an explicit
 * optional input whose remaining value the effects return.
 */
module Conversation {
  import opened Common
  import Server
  import opened Navigation

  /** One log entry; message ids are not modelled. */
  datatype Message = Message(role: Role, text: string, isResume: bool)

  /** The request body of `/chat`. */
  datatype ChatRequest = ChatRequest(message: string, history: seq<Server.HistoryItem>)

  /** The form `handleInit` posts to `/analyze`. */
  datatype InitRequest = InitRequest(file: Document, githubUrl: string)

  const DefenseBanner: string := "\U{26A0}\U{FE0F} DEFENSE MODE INITIATED. INTERROGATION LOGGED."
  const ChannelBanner: string := "ENCRYPTED CHANNEL ESTABLISHED."
  const AssetsBanner: string := "ASSETS ANALYZED. MEMORY LOADED."
  const DefaultAnalysis: string := "Analysis complete."
  const ProjectPrefix: string := "\U{1F4C1} PROJECT: "
  const ErrorPrefix: string := "\U{274C} ERROR: "
  const ConnectionDropped: string := "CONNECTION DROPPED. RETRY."
  const RepoFailed: string := "FAILED TO ACCESS REPO."
  const CompileRequest: string := "COMPILE FINAL ATS DRAFT"
  const CompileWait: string := "COMPILING DATA STREAMS... PLEASE WAIT..."
  const CompileFailed: string := "COMPILATION FAILED."

  function SystemLine(text: string): Message { Message(System, text, false) }
  function UserLine(text: string): Message { Message(User, text, false) }
  function AiLine(text: string): Message { Message(Ai, text, false) }

  // ---------------------------------------------------------------------------
  // String.prototype.trim

  /** The characters `trim` removes: ECMAScript white space and line
      terminators. */
  predicate IsJsSpace(c: char)
  {
    || ('\U{0009}' <= c <= '\U{000D}') || c == '\U{0020}' || c == '\U{00A0}' || c == '\U{1680}'
    || ('\U{2000}' <= c <= '\U{200A}') || c == '\U{2028}' || c == '\U{2029}' || c == '\U{202F}'
    || c == '\U{205F}' || c == '\U{3000}' || c == '\U{FEFF}'
  }

  /** Drops leading white space. */
  function TrimStart(s: string): (r: string)
    ensures |r| <= |s| && r == s[|s| - |r|..]
    ensures |r| > 0 ==> !IsJsSpace(r[0])
    decreases |s|
  {
    if |s| > 0 && IsJsSpace(s[0]) then TrimStart(s[1..]) else s
  }

  /** Drops trailing white space. */
  function TrimEnd(s: string): (r: string)
    ensures |r| <= |s| && r == s[..|r|]
    ensures |r| > 0 ==> !IsJsSpace(r[|r| - 1])
    decreases |s|
  {
    if |s| > 0 && IsJsSpace(s[|s| - 1]) then TrimEnd(s[..|s| - 1]) else s
  }

  /** `s.trim()`. */
  function Trim(s: string): string
  {
    TrimEnd(TrimStart(s))
  }

  /** True when every character is white space, so that `trim` leaves nothing. */
  predicate IsBlank(s: string)
  {
    forall i :: 0 <= i < |s| ==> IsJsSpace(s[i])
  }

  /** `trim` leaves nothing exactly when the text is all white space. */
  lemma {:induction false} TrimEmptyIffBlank(s: string)
    ensures Trim(s) == "" <==> IsBlank(s)
    decreases |s|
  {
    if |s| > 0 {
      if IsJsSpace(s[0]) {
        TrimEmptyIffBlank(s[1..]);
        assert Trim(s) == Trim(s[1..]);
        assert IsBlank(s) <==> IsBlank(s[1..]) by {
          if IsBlank(s[1..]) {
            forall i | 0 <= i < |s| ensures IsJsSpace(s[i]) {
              if i > 0 { assert s[i] == s[1..][i - 1]; }
            }
          }
          if IsBlank(s) {
            forall i | 0 <= i < |s[1..]| ensures IsJsSpace(s[1..][i]) {
              assert s[1..][i] == s[i + 1];
            }
          }
        }
      } else {
        assert TrimStart(s) == s;
        assert |TrimEnd(s)| > 0 by {
          if |TrimEnd(s)| == 0 {
            TrimEndKeepsNonSpace(s, 0);
          }
        }
      }
    }
  }

  /** A character that is not white space survives `TrimEnd`. */
  lemma {:induction false} TrimEndKeepsNonSpace(s: string, k: nat)
    requires k < |s| && !IsJsSpace(s[k])
    ensures k < |TrimEnd(s)|
    decreases |s|
  {
    if IsJsSpace(s[|s| - 1]) {
      assert k < |s| - 1;
      assert s[..|s| - 1][k] == s[k];
      TrimEndKeepsNonSpace(s[..|s| - 1], k);
    }
  }

  // ---------------------------------------------------------------------------
  // The history sent with a message

  /** The `type` string of a role. */
  function RoleName(r: Role): (name: string)
    ensures name == "user" <==> r == User
    ensures name == "system" <==> r == System
  {
    match r
    case User => "user"
    case Ai => "ai"
    case System => "system"
  }

  /** `messages.filter(m => m.type !== 'system').map(...)`. */
  function History(log: seq<Message>): (h: seq<Server.HistoryItem>)
    ensures |h| <= |log|
    ensures forall i :: 0 <= i < |h| ==> h[i].kind != "system"
    decreases |log|
  {
    if |log| == 0 then []
    else
      var rest := History(log[1..]);
      if log[0].role == System then rest
      else [Server.HistoryItem(RoleName(log[0].role), log[0].text)] + rest
  }

  /** The history of a log is the histories of its parts, in order. */
  lemma {:induction false} HistoryAppend(a: seq<Message>, b: seq<Message>)
    ensures History(a + b) == History(a) + History(b)
    decreases |a|
  {
    if |a| == 0 {
      assert a + b == b;
    } else {
      assert (a + b)[1..] == a[1..] + b;
      HistoryAppend(a[1..], b);
    }
  }

  /** A single entry contributes nothing when it is a system line, and its
      role and text otherwise. */
  lemma HistoryOfOne(m: Message)
    ensures m.role == System ==> History([m]) == []
    ensures m.role != System ==> History([m]) == [Server.HistoryItem(RoleName(m.role), m.text)]
  {
    assert [m][1..] == [];
  }

  /** A log of system lines only sends no history. */
  lemma {:induction false} HistoryAllSystem(log: seq<Message>)
    requires forall i :: 0 <= i < |log| ==> log[i].role == System
    ensures History(log) == []
    decreases |log|
  {
    if |log| > 0 {
      assert forall i :: 0 <= i < |log[1..]| ==> log[1..][i] == log[i + 1];
      HistoryAllSystem(log[1..]);
    }
  }

  // ---------------------------------------------------------------------------
  // The logs the effects and `handleInit` install

  /** The two-entry log of an interview seeded with its opening question. */
  function SeedLog(question: string): (log: seq<Message>)
    ensures |log| == 2 && log[0].role == System && log[1] == AiLine(question)
  {
    [SystemLine(DefenseBanner), AiLine(question)]
  }

  /** The log `handleInit` installs: the channel banner, a project line when a
      project is selected, the assets banner, and the analysis as an ai entry
      (the default text when `initial_chat` is missing or empty). */
  function InitLog(project: Option<Project>, initialChat: Option<string>): (log: seq<Message>)
    ensures |log| == if project.Some? then 4 else 3
    ensures log[0] == SystemLine(ChannelBanner) && log[|log| - 2] == SystemLine(AssetsBanner)
    ensures project.Some? ==> log[1] == SystemLine(ProjectPrefix + project.value.name)
    ensures log[|log| - 1].role == Ai
    ensures Truthy(initialChat) ==> log[|log| - 1].text == initialChat.value
    ensures !Truthy(initialChat) ==> log[|log| - 1].text == DefaultAnalysis
    ensures forall i :: 0 <= i < |log| - 1 ==> log[i].role == System
  {
    var analysis := if Truthy(initialChat) then initialChat.value else DefaultAnalysis;
    var projectLine := if project.Some? then [SystemLine(ProjectPrefix + project.value.name)] else [];
    [SystemLine(ChannelBanner)] + projectLine + [SystemLine(AssetsBanner), AiLine(analysis)]
  }

  /** The chat message `/analyze` builds is never empty, so after a successful
      analysis the terminal shows that message and not the default text, and
      the history of the new log holds just that message. */
  lemma AnalyzedChatShown(project: Option<Project>, decoded: Option<AnalysisLists>)
    ensures var log := InitLog(project, Some(Server.ChatMessage(decoded)));
            && log[|log| - 1] == AiLine(Server.ChatMessage(decoded))
            && History(log) == [Server.HistoryItem("ai", Server.ChatMessage(decoded))]
  {
    var log := InitLog(project, Some(Server.ChatMessage(decoded)));
    assert Server.ChatMessage(decoded) != "" by {
      if decoded.None? { assert Server.ChatMessage(decoded) == Server.AnalysisFallback; }
    }
    var n := |log|;
    assert log == log[..n - 1] + [log[n - 1]];
    HistoryAppend(log[..n - 1], [log[n - 1]]);
    HistoryOfOne(log[n - 1]);
    HistoryAllSystem(log[..n - 1]);
  }

  // ---------------------------------------------------------------------------
  // The component

  /** Everything `ChatInterface` holds, as one value, so that each handler can
      state its whole effect as an update of the state before it. */
  datatype ChatState = ChatState(
    messages: seq<Message>, input: string, initialized: bool, loading: bool,
    interviewInitialized: bool, previousMode: View,
    showRepoInput: bool, newRepoUrl: string, repoLoading: bool)

  class ChatInterface {
    var messages: seq<Message>
    var input: string
    var initialized: bool
    var loading: bool
    var interviewInitialized: bool
    var previousMode: View
    var showRepoInput: bool
    var newRepoUrl: string
    var repoLoading: bool

    /** An interview seed always marks the terminal initialized. */
    ghost predicate Valid()
      reads this
    {
      interviewInitialized ==> initialized
    }

    /** The current state of all nine fields. */
    function State(): ChatState
      reads this
    {
      ChatState(messages, input, initialized, loading, interviewInitialized, previousMode,
                showRepoInput, newRepoUrl, repoLoading)
    }

    /** The state on mount, with the `mode` prop the component receives. */
    constructor(mode: View)
      ensures Valid()
      ensures messages == [] && input == "" && !initialized && !loading && !interviewInitialized
      ensures previousMode == mode && !showRepoInput && newRepoUrl == "" && !repoLoading
    {
      messages := [];
      input := "";
      initialized := false;
      loading := false;
      interviewInitialized := false;
      previousMode := mode;
      showRepoInput := false;
      newRepoUrl := "";
      repoLoading := false;
    }

    /** The mode-change effect: a different mode clears the log and both
        initialization flags and records the mode; the same mode changes
        nothing. */
    method OnModeChange(mode: View)
      requires Valid()
      modifies this
      ensures Valid()
      ensures old(previousMode) == mode ==> unchanged(this)
      ensures old(previousMode) != mode ==>
                State() == old(State()).(messages := [], initialized := false, interviewInitialized := false,
                                         previousMode := mode)
    {
      if previousMode != mode {
        messages := [];
        initialized := false;
        interviewInitialized := false;
        previousMode := mode;
      }
    }

    /** Installs the interview seed; the caller removes the stored question. */
    method Seed(question: string)
      modifies this
      ensures State() == old(State()).(messages := SeedLog(question), initialized := true, interviewInitialized := true)
      ensures Valid()
    {
      interviewInitialized := true;
      initialized := true;
      messages := SeedLog(question);
    }

    /** `handleInit`: posts the file and URL; an answer marks the terminal
        initialized and replaces the whole log, a failed request appends one
        error line and leaves `initialized` as it was. */
    method HandleInit(file: Document, url: string, project: Option<Project>, reply: Reply<Option<string>>)
      returns (request: InitRequest)
      requires Valid()
      modifies this
      ensures Valid() && request == InitRequest(file, url)
      ensures reply.Ok? ==>
                State() == old(State()).(messages := InitLog(project, reply.value), initialized := true, loading := false)
      ensures reply.Failed? ==>
                State() == old(State()).(messages := old(messages) + [SystemLine(ErrorPrefix + reply.message)],
                                         loading := false)
    {
      loading := true;
      request := InitRequest(file, url);
      match reply {
        case Ok(initialChat) =>
          initialized := true;
          messages := InitLog(project, initialChat);
        case Failed(e) =>
          messages := messages + [SystemLine(ErrorPrefix + e)];
      }
      loading := false;
    }

    /** The load effect. A stored question (non-empty) seeds the interview log
        when no interview was seeded yet, whatever the mode, and is removed.
        Otherwise, in chat mode with a file and an uninitialized terminal, the
        analysis is requested with the project's URL (or the empty text).
        `intro` is the stored question and `remaining` what is left stored. */
    method OnLoad(mode: View, intro: Option<string>, uploaded: Option<Document>, project: Option<Project>,
                  reply: Reply<Option<string>>)
      returns (remaining: Option<string>, request: Option<InitRequest>)
      requires Valid()
      modifies this
      ensures Valid()
      ensures Truthy(intro) && !old(interviewInitialized) ==>
                && State() == old(State()).(messages := SeedLog(intro.value), initialized := true,
                                            interviewInitialized := true)
                && remaining == None && request == None
      ensures !(Truthy(intro) && !old(interviewInitialized)) ==> remaining == intro
      ensures !Truthy(intro) && uploaded.Some? && !old(initialized) && mode == Chat ==>
                && request == Some(InitRequest(uploaded.value,
                     if project.Some? && Truthy(project.value.githubUrl) then project.value.githubUrl.value else ""))
                && (reply.Ok? ==>
                      State() == old(State()).(messages := InitLog(project, reply.value), initialized := true,
                                               loading := false))
                && (reply.Failed? ==>
                      State() == old(State()).(messages := old(messages) + [SystemLine(ErrorPrefix + reply.message)],
                                               loading := false))
      ensures !(Truthy(intro) && !old(interviewInitialized))
              && !(!Truthy(intro) && uploaded.Some? && !old(initialized) && mode == Chat) ==>
                unchanged(this) && request == None
      ensures old(interviewInitialized) ==> request == None
    {
      remaining := intro;
      request := None;
      if Truthy(intro) && !interviewInitialized {
        Seed(intro.value);
        remaining := None;
      } else if uploaded.Some? && !initialized && !Truthy(intro) && mode == Chat {
        var url := if project.Some? && Truthy(project.value.githubUrl) then project.value.githubUrl.value else "";
        var sent := HandleInit(uploaded.value, url, project, reply);
        request := Some(sent);
      }
    }

    /** The storage listener: in interview mode a stored question seeds the
        log once and is removed. */
    method OnStorageEvent(mode: View, intro: Option<string>) returns (remaining: Option<string>)
      requires Valid()
      modifies this
      ensures Valid()
      ensures Truthy(intro) && mode == Interview && !old(interviewInitialized) ==>
                && State() == old(State()).(messages := SeedLog(intro.value), initialized := true,
                                            interviewInitialized := true)
                && remaining == None
      ensures !(Truthy(intro) && mode == Interview && !old(interviewInitialized)) ==>
                unchanged(this) && remaining == intro
    {
      remaining := intro;
      if Truthy(intro) && mode == Interview && !interviewInitialized {
        Seed(intro.value);
        remaining := None;
      }
    }

    /** Typing in the message box. */
    method EditInput(text: string)
      modifies this
      ensures State() == old(State()).(input := text)
    {
      input := text;
    }

    /** `handleSend` on the typed text: blank text does nothing; otherwise the
        user line is appended at once and the box cleared, the request carries
        the history of the log as it was before, and exactly one ai reply or
        one connection-dropped line follows. */
    method HandleSend(reply: Reply<string>) returns (request: Option<ChatRequest>)
      modifies this
      ensures IsBlank(old(input)) ==> unchanged(this) && request == None
      ensures !IsBlank(old(input)) ==>
                && request == Some(ChatRequest(old(input), History(old(messages))))
                && State() == old(State()).(
                     input := "",
                     messages := old(messages) + [UserLine(old(input))]
                                 + [if reply.Ok? then AiLine(reply.value) else SystemLine(ConnectionDropped)])
    {
      var text := input;
      TrimEmptyIffBlank(text);
      if Trim(text) == "" {
        return None;
      }
      messages := messages + [UserLine(text)];
      input := "";
      request := Some(ChatRequest(text, History(messages[..|messages| - 1])));
      match reply {
        case Ok(answer) => messages := messages + [AiLine(answer)];
        case Failed(_) => messages := messages + [SystemLine(ConnectionDropped)];
      }
    }

    /** The add-repo toggle button. */
    method ToggleRepoInput()
      modifies this
      ensures State() == old(State()).(showRepoInput := !old(showRepoInput))
    {
      showRepoInput := !showRepoInput;
    }

    /** Typing in the repository box. */
    method EditRepoUrl(text: string)
      modifies this
      ensures State() == old(State()).(newRepoUrl := text)
    {
      newRepoUrl := text;
    }

    /** `handleAddRepo`: an empty URL does nothing; otherwise the scan line is
        appended, then the extracted bullets as an ai entry (an answer without
        bullets shows the text "undefined") or one failure line, and the box is
        hidden and cleared. */
    method HandleAddRepo(reply: Reply<Option<string>>) returns (request: Option<string>)
      modifies this
      ensures old(newRepoUrl) == "" ==> unchanged(this) && request == None
      ensures old(newRepoUrl) != "" ==>
                && request == Some(old(newRepoUrl))
                && State() == old(State()).(
                     messages := old(messages) + [UserLine("Scanning Repo: " + old(newRepoUrl))]
                       + [if reply.Ok? then AiLine("Extracted Data:\n\n"
                                                   + (if reply.value.Some? then reply.value.value else "undefined")
                                                   + "\n\nAdd this to 'Projects'?")
                          else SystemLine(RepoFailed)],
                     showRepoInput := false, repoLoading := false, newRepoUrl := "")
    {
      if newRepoUrl == "" {
        return None;
      }
      request := Some(newRepoUrl);
      repoLoading := true;
      showRepoInput := false;
      messages := messages + [UserLine("Scanning Repo: " + newRepoUrl)];
      match reply {
        case Ok(bullets) =>
          var shown := if bullets.Some? then bullets.value else "undefined";
          messages := messages + [AiLine("Extracted Data:\n\n" + shown + "\n\nAdd this to 'Projects'?")];
        case Failed(_) =>
          messages := messages + [SystemLine(RepoFailed)];
      }
      repoLoading := false;
      newRepoUrl := "";
    }

    /** `handleCompile`: the request line and the wait line, then the compiled
        resume as a flagged ai entry (the empty text when the answer has none)
        or one failure line. */
    method HandleCompile(reply: Reply<Option<string>>)
      modifies this
      ensures State() == old(State()).(
                messages := old(messages) + [UserLine(CompileRequest), SystemLine(CompileWait)]
                  + [if reply.Ok? then Message(Ai, if reply.value.Some? then reply.value.value else "", true)
                     else SystemLine(CompileFailed)])
    {
      messages := messages + [UserLine(CompileRequest)];
      messages := messages + [SystemLine(CompileWait)];
      match reply {
        case Ok(resume) =>
          messages := messages + [Message(Ai, if resume.Some? then resume.value else "", true)];
        case Failed(_) =>
          messages := messages + [SystemLine(CompileFailed)];
      }
    }
  }

  /** A send never removes or rewrites an earlier entry, and the history it
      sends is exactly what the server maps to user and model turns. */
  lemma SendKeepsLog(before: seq<Message>, text: string, reply: Message)
    ensures var after := before + [UserLine(text)] + [reply];
            && |after| == |before| + 2 && after[..|before|] == before
            && History(after) == History(before) + [Server.HistoryItem("user", text)] + History([reply])
  {
    var after := before + [UserLine(text)] + [reply];
    assert after == before + ([UserLine(text)] + [reply]);
    assert after[..|before|] == before;
    HistoryAppend(before, [UserLine(text)] + [reply]);
    HistoryAppend([UserLine(text)], [reply]);
    HistoryOfOne(UserLine(text));
  }
}
