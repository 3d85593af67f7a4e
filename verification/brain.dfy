/**
 * The deterministic parts of the backend's AI layer (backend/brain.py): the
 * regex fallback of project extraction, the empty-code guard of bullet
 * generation, the text cleaner applied before speech, the audio container
 * check of speech generation, and the voice-chat session globals. Every call
 * into the language model is an input to the model here.
 */
module Brain {
  import opened Common
  import opened GithubUrl

  // ---------------------------------------------------------------------------
  // extract_projects_from_resume: the regex fallback

  /** The project the fallback builds from one regex match. */
  function ProjectFromMatch(m: RepoMatch): Project
  {
    Project(m.repo, "GitHub repository: " + m.owner + "/" + m.repo, Some(MatchUrl(m)), [])
  }

  /** The single entry returned when the resume holds no GitHub link. */
  const NoProjectsPlaceholder: Project :=
    Project("No projects found", "Please enter GitHub URL manually", None, [])

  /** The fallback list, built by the append loop over the `re.findall`
      matches: one project per match, in match order, or the placeholder. */
  method FallbackProjects(matches: seq<RepoMatch>) returns (projects: seq<Project>)
    ensures |matches| == 0 ==> projects == [NoProjectsPlaceholder]
    ensures |matches| > 0 ==> |projects| == |matches|
    ensures |matches| > 0 ==> forall i :: 0 <= i < |matches| ==>
              && projects[i].name == matches[i].repo
              && projects[i].description == "GitHub repository: " + matches[i].owner + "/" + matches[i].repo
              && projects[i].githubUrl == Some("https://github.com/" + matches[i].owner + "/" + matches[i].repo)
              && projects[i].technologies == []
  {
    var found: seq<Project> := [];
    for i := 0 to |matches|
      invariant |found| == i
      invariant forall k :: 0 <= k < i ==> found[k] == ProjectFromMatch(matches[k])
    {
      found := found + [ProjectFromMatch(matches[i])];
    }
    projects := if |found| > 0 then found else [NoProjectsPlaceholder];
  }

  /** The URL of a fallback project parses back to the match it came from, and
      the repo it names is the project's name. */
  lemma FallbackUrlParsesBack(m: RepoMatch)
    requires RegexName(m.owner) && RegexName(m.repo) && m.owner != "tree"
    ensures var d := ExtractGithubDetails(ProjectFromMatch(m).githubUrl);
            d == Details(m.owner, m.repo, None) && d.repo == ProjectFromMatch(m).name
  {
    RegexUrlRoundTrip(m);
  }

  // ---------------------------------------------------------------------------
  // generate_star_bullets: the empty-code guard

  const NoCodeWarning: string :=
    "\U{26A0}\U{FE0F} ERROR: No code was found in this repository. Please check the URL or try a public repo."

  /** True when the guard answers without asking the model. */
  predicate TooLittleCode(codeContext: string)
  {
    |codeContext| < 50
  }

  /** `generate_star_bullets`: the fixed warning for fewer than 50 characters of
      code, otherwise the model's text (or the text of its exception). */
  function StarBullets(codeContext: string, model: Reply<string>): (r: string)
    ensures TooLittleCode(codeContext) ==> r == NoCodeWarning
    ensures !TooLittleCode(codeContext) && model.Ok? ==> r == model.value
    ensures !TooLittleCode(codeContext) && model.Failed? ==> r == "Error generating bullets: " + model.message
  {
    if TooLittleCode(codeContext) then NoCodeWarning
    else match model
      case Ok(text) => text
      case Failed(e) => "Error generating bullets: " + e
  }

  /** Under the guard, whatever the model would have said makes no difference. */
  lemma GuardIgnoresModel(codeContext: string, a: Reply<string>, b: Reply<string>)
    requires TooLittleCode(codeContext)
    ensures StarBullets(codeContext, a) == StarBullets(codeContext, b)
  {
  }

  // ---------------------------------------------------------------------------
  // process_voice_text: cleaning text for speech

  /** `s.replace(c, "")` for a single character. */
  function RemoveChar(s: string, c: char): (r: string)
    ensures c !in r
    ensures |r| <= |s|
  {
    if |s| == 0 then []
    else if s[0] == c then RemoveChar(s[1..], c)
    else [s[0]] + RemoveChar(s[1..], c)
  }

  /** The cleaner as written: `.replace('*', '').replace('#', '').replace('`', '')`. */
  function CleanForSpeech(text: string): string
  {
    RemoveChar(RemoveChar(RemoveChar(text, '*'), '#'), '`')
  }

  /** Characters the cleaner keeps. */
  predicate Speakable(c: char)
  {
    c != '*' && c != '#' && c != '`'
  }

  /** Reference definition: the speakable characters of `s`, in order. */
  function KeepSpeakable(s: string): (r: string)
    ensures forall i :: 0 <= i < |r| ==> Speakable(r[i])
    ensures (forall i :: 0 <= i < |s| ==> Speakable(s[i])) ==> r == s
    decreases |s|
  {
    if |s| == 0 then []
    else if Speakable(s[0]) then [s[0]] + KeepSpeakable(s[1..])
    else KeepSpeakable(s[1..])
  }

  /** The reference filter works piece by piece, so it keeps order. */
  lemma {:induction false} KeepSpeakableConcat(a: string, b: string)
    ensures KeepSpeakable(a + b) == KeepSpeakable(a) + KeepSpeakable(b)
    decreases |a|
  {
    if |a| == 0 {
      assert a + b == b;
    } else {
      assert (a + b)[1..] == a[1..] + b;
      KeepSpeakableConcat(a[1..], b);
    }
  }

  /** The three chained replacements remove exactly the unspeakable characters
      and keep every other character in order. */
  lemma {:induction false} CleanForSpeechIsFilter(s: string)
    ensures CleanForSpeech(s) == KeepSpeakable(s)
    decreases |s|
  {
    if |s| > 0 {
      CleanForSpeechIsFilter(s[1..]);
      var c := s[0];
      var t := s[1..];
      var r1 := RemoveChar(t, '*');
      var r2 := RemoveChar(r1, '#');
      if c == '*' {
      } else if c == '#' {
        assert RemoveChar(s, '*') == [c] + r1;
        assert RemoveChar([c] + r1, '#') == r2 by { assert ([c] + r1)[1..] == r1; }
      } else if c == '`' {
        assert RemoveChar(s, '*') == [c] + r1;
        assert RemoveChar([c] + r1, '#') == [c] + r2 by { assert ([c] + r1)[1..] == r1; }
        assert RemoveChar([c] + r2, '`') == RemoveChar(r2, '`') by { assert ([c] + r2)[1..] == r2; }
      } else {
        assert RemoveChar(s, '*') == [c] + r1;
        assert RemoveChar([c] + r1, '#') == [c] + r2 by { assert ([c] + r1)[1..] == r1; }
        assert RemoveChar([c] + r2, '`') == [c] + RemoveChar(r2, '`') by { assert ([c] + r2)[1..] == r2; }
      }
    }
  }

  // ---------------------------------------------------------------------------
  // generate_speech: the container pass-through

  const Riff: seq<bv8> := [0x52, 0x49, 0x46, 0x46]  // "RIFF"
  const OggS: seq<bv8> := [0x4F, 0x67, 0x67, 0x53]  // "OggS"

  /** `raw[:4] == b'RIFF' or raw[:4] == b'OggS'`. */
  predicate IsContainer(audio: seq<bv8>)
  {
    Take(audio, 4) == Riff || Take(audio, 4) == OggS
  }

  /** The audio `generate_speech` returns for the model's bytes `raw`: `raw`
      itself when it already is a RIFF or Ogg stream, otherwise `wav`, the
      output of the `wave` module for `raw` (a RIFF stream). */
  function SpeechAudio(raw: seq<bv8>, wav: seq<bv8>): (r: seq<bv8>)
    requires Take(wav, 4) == Riff
    ensures IsContainer(r)
    ensures IsContainer(raw) ==> r == raw
    ensures !IsContainer(raw) ==> r == wav
  {
    if IsContainer(raw) then raw else wav
  }

  // ---------------------------------------------------------------------------
  // init_voice_chat / process_voice_text: the session globals

  /** The candidate data held for the voice interviewer. */
  datatype VoiceContext = VoiceContext(resume: string, code: string)

  const SessionMissing: string := "Error: Session not initialized. Upload resume first."
  const VoiceRetry: string := "I didn't catch that. Could you repeat your answer?"

  /** The module globals `voice_chat_session` and `live_session_context`. A
      session is represented by the candidate data of its system instruction. */
  class VoiceBrain {
    var voiceChatSession: Option<VoiceContext>
    var liveSessionContext: Option<VoiceContext>

    constructor()
      ensures voiceChatSession == None && liveSessionContext == None
    {
      voiceChatSession := None;
      liveSessionContext := None;
    }

    /** `init_voice_chat`: the resume cut to 2000 characters and the code to
        10000 are stored; the session is replaced only when the model starts
        (`modelStarts`), and the result says whether it did. */
    method InitVoiceChat(resumeText: string, codeContext: string, modelStarts: bool) returns (ok: bool)
      modifies this
      ensures liveSessionContext == Some(VoiceContext(Take(resumeText, 2000), Take(codeContext, 10000)))
      ensures ok == modelStarts
      ensures ok ==> voiceChatSession == liveSessionContext
      ensures !ok ==> voiceChatSession == old(voiceChatSession)
    {
      var context := VoiceContext(Take(resumeText, 2000), Take(codeContext, 10000));
      liveSessionContext := Some(context);
      if modelStarts {
        voiceChatSession := Some(context);
        ok := true;
      } else {
        ok := false;
      }
    }

    /** `process_voice_text`: without a session the fixed message; otherwise
        the model's answer cleaned for speech, or the retry line when the model
        call raises. */
    method ProcessVoiceText(userText: string, model: Reply<string>) returns (r: string)
      ensures voiceChatSession.None? ==> r == SessionMissing
      ensures voiceChatSession.Some? && model.Ok? ==> r == KeepSpeakable(model.value)
      ensures voiceChatSession.Some? && model.Failed? ==> r == VoiceRetry
    {
      if voiceChatSession.None? {
        return SessionMissing;
      }
      match model {
        case Ok(text) =>
          r := CleanForSpeech(text);
          CleanForSpeechIsFilter(text);
        case Failed(_) =>
          r := VoiceRetry;
      }
    }
  }
}
