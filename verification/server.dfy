/**
 * The request handlers of the backend (backend/main.py) that hold logic of
 * their own: the repository cache and the current-user record written by
 * `/analyze` and `/add_repo`, the chat message built from an analysis, and
 * the history mapping of `/chat`. PDF parsing, repository fetching and every
 * model call are inputs.
 */
module Server {
  import opened Common
  import opened GithubUrl
  import Brain

  /** `DB['current_user']`. */
  datatype UserRecord = UserRecord(resume: string, code: string, analysis: string)

  /** The reply of `/analyze` on success. */
  datatype AnalyzeResponse = AnalyzeResponse(data: string, initialChat: string)

  /** The replies of `/add_repo`. */
  datatype AddRepoResponse =
    | InvalidUrl                 // {"status": "error", "message": ...}: the HTTPException, caught
    | AccessDenied               // {"status": "error", "bullets": AccessDeniedText}
    | RepoBullets(bullets: string)  // {"status": "success", "bullets": ...}

  /** One entry of the `history` a client sends to `/chat`. */
  datatype HistoryItem = HistoryItem(kind: string, text: string)

  /** One entry of the history handed to the chat model. */
  datatype ModelTurn = ModelTurn(role: string, parts: seq<string>)

  const NoUrlContext: string := "No GitHub URL found in resume or provided."
  const InvalidUrlContext: string := "Error: Invalid URL extracted."
  const AnalysisFallback: string := "Analysis Complete. Check Dashboard for details."
  const AccessDeniedText: string :=
    "\U{26A0}\U{FE0F} ACCESS DENIED: Repo is empty, Private, or Branch not found."
  const ChatNoData: string := "\U{26A0}\U{FE0F} SYSTEM ERROR: No data found."
  const CritiqueHeader: string := "**REAL WORLD CRITIQUE:**"
  const ClaimsHeader: string := "**FALSE CLAIMS / VERIFICATION:**"
  const AdditionsHeader: string := "**RESUME ADDITIONS:**"

  // ---------------------------------------------------------------------------
  // The chat message of /analyze

  /** `"\n".join([f"- {x}" for x in items])`. */
  function Bullets(items: seq<string>): (r: string)
    decreases |items|
  {
    if |items| == 0 then ""
    else if |items| == 1 then "- " + items[0]
    else "- " + items[0] + "\n" + Bullets(items[1..])
  }

  /** The lines a bullet list reads as: one "- item" line per item, in order;
      an empty list joins to the empty text, which reads as one empty line. */
  function BulletLines(items: seq<string>): (lines: seq<string>)
    ensures |lines| == if |items| == 0 then 1 else |items|
  {
    if |items| == 0 then [""] else seq(|items|, i requires 0 <= i < |items| => "- " + items[i])
  }

  /** Reading the bullet text back line by line gives `BulletLines`, when no
      item holds a line break. */
  lemma {:induction false} BulletsLines(items: seq<string>)
    requires forall i :: 0 <= i < |items| ==> '\n' !in items[i]
    ensures Split(Bullets(items), '\n') == BulletLines(items)
    decreases |items|
  {
    if |items| == 0 {
      SplitCount("", '\n');
    } else {
      var line := "- " + items[0];
      assert '\n' !in line by {
        assert forall k :: 0 <= k < |line| ==> line[k] == if k < 2 then "- "[k] else items[0][k - 2];
      }
      if |items| == 1 {
        SplitCount(line, '\n');
      } else {
        BulletsLines(items[1..]);
        assert Bullets(items) == line + ['\n'] + Bullets(items[1..]);
        SplitAfterSep(line, '\n', Bullets(items[1..]));
        assert BulletLines(items) == [line] + BulletLines(items[1..]);
      }
    }
  }

  /** One headed section of the analysis message: the header, then its
      bullets on the following lines. */
  function Section(header: string, items: seq<string>): string
  {
    header + "\n" + Bullets(items)
  }

  /** The `initial_chat` of `/analyze`: three headed bullet sections separated
      by blank lines when the analysis decodes, the fixed fallback when it does
      not. */
  function ChatMessage(decoded: Option<AnalysisLists>): (r: string)
    ensures decoded.Some? ==> |r| > |CritiqueHeader| && r[..|CritiqueHeader|] == CritiqueHeader
    ensures decoded.None? ==> r == AnalysisFallback
  {
    match decoded
    case None => AnalysisFallback
    case Some(lists) =>
      Section(CritiqueHeader, lists.critique) + "\n\n"
      + Section(ClaimsHeader, lists.claims) + "\n\n"
      + Section(AdditionsHeader, lists.suggestions)
  }

  /** A section reads back as its header line followed by its bullet lines. */
  lemma SectionLines(header: string, items: seq<string>)
    requires '\n' !in header
    requires forall i :: 0 <= i < |items| ==> '\n' !in items[i]
    ensures Split(Section(header, items), '\n') == [header] + BulletLines(items)
  {
    BulletsLines(items);
    SplitAfterSep(header, '\n', Bullets(items));
  }

  /** A blank line between two texts reads as one empty line between their
      lines. */
  lemma SplitBlankLine(x: string, y: string)
    ensures Split(x + "\n\n" + y, '\n') == Split(x, '\n') + [""] + Split(y, '\n')
  {
    assert x + "\n\n" + y == x + ['\n'] + ([] + ['\n'] + y);
    SplitConcat(x, '\n', [] + ['\n'] + y);
    SplitAfterSep([], '\n', y);
  }

  /** Read line by line, the chat message of a decoded analysis is the
      critique header and its bullet lines, an empty line, the claims header
      and its lines, an empty line, and the additions header and its lines. */
  lemma ChatMessageLines(lists: AnalysisLists)
    requires forall i :: 0 <= i < |lists.critique| ==> '\n' !in lists.critique[i]
    requires forall i :: 0 <= i < |lists.claims| ==> '\n' !in lists.claims[i]
    requires forall i :: 0 <= i < |lists.suggestions| ==> '\n' !in lists.suggestions[i]
    ensures Split(ChatMessage(Some(lists)), '\n') ==
              [CritiqueHeader] + BulletLines(lists.critique)
              + ["", ClaimsHeader] + BulletLines(lists.claims)
              + ["", AdditionsHeader] + BulletLines(lists.suggestions)
  {
    var s1 := Section(CritiqueHeader, lists.critique);
    var s2 := Section(ClaimsHeader, lists.claims);
    var s3 := Section(AdditionsHeader, lists.suggestions);
    SectionLines(CritiqueHeader, lists.critique);
    SectionLines(ClaimsHeader, lists.claims);
    SectionLines(AdditionsHeader, lists.suggestions);
    SplitBlankLine(s1 + "\n\n" + s2, s3);
    SplitBlankLine(s1, s2);
  }

  /** The URL `/analyze` works on: the form field unless it is missing, empty or
      the text "null"; then the first regex match in the resume, if any. */
  function TargetUrl(githubUrl: Option<string>, resumeMatch: Option<RepoMatch>): (r: Option<string>)
    ensures Truthy(githubUrl) && githubUrl.value != "null" ==> r == githubUrl
    ensures !(Truthy(githubUrl) && githubUrl.value != "null") ==>
              (r.Some? <==> resumeMatch.Some?) && (r.Some? ==> r.value == MatchUrl(resumeMatch.value))
    ensures r.Some? ==> r.value != ""
  {
    if Truthy(githubUrl) && githubUrl.value != "null" then githubUrl
    else match resumeMatch
      case Some(m) => Some(MatchUrl(m))
      case None => None
  }

  /** The cache key for a URL, when its owner and repo are both non-empty. */
  function KeyOf(url: string): (r: Option<string>)
    ensures r.Some? <==> (var d := ExtractGithubDetails(Some(url)); d.Details? && d.owner != "" && d.repo != "")
  {
    var d := ExtractGithubDetails(Some(url));
    if d.Details? && d.owner != "" && d.repo != "" then Some(CacheKey(d.owner, d.repo, d.branch)) else None
  }

  /** The code context `/analyze` hands to the analyzer, given the cache, the
      target URL and what the repository fetcher would return. */
  function AnalyzeContext(cache: map<string, string>, target: Option<string>, fetched: string): string
  {
    match target
    case None => NoUrlContext
    case Some(url) =>
      match KeyOf(url)
      case None => InvalidUrlContext
      case Some(key) => if key in cache then cache[key] else fetched
  }

  /** A cache hit is served without the fetcher: the fetched text is not read. */
  lemma CacheHitIgnoresFetch(cache: map<string, string>, url: string, f1: string, f2: string)
    requires KeyOf(url).Some? && KeyOf(url).value in cache
    ensures AnalyzeContext(cache, Some(url), f1) == AnalyzeContext(cache, Some(url), f2) == cache[KeyOf(url).value]
  {
  }

  /** A URL with or without the scheme and host reaches the same cache entry. */
  lemma SameKeyWithoutScheme(s: string)
    ensures KeyOf("https://github.com/" + s) == KeyOf("github.com/" + s)
  {
    SchemeAndHostIgnored(s);
  }

  // ---------------------------------------------------------------------------
  // /chat

  /** The append loop of `chat_endpoint`: type 'user' becomes role "user",
      every other type "model"; length, order and texts are kept. */
  method MapHistory(history: seq<HistoryItem>) returns (turns: seq<ModelTurn>)
    ensures |turns| == |history|
    ensures forall i :: 0 <= i < |history| ==>
              && turns[i].parts == [history[i].text]
              && (turns[i].role == "user" <==> history[i].kind == "user")
              && (turns[i].role != "user" ==> turns[i].role == "model")
  {
    turns := [];
    for i := 0 to |history|
      invariant |turns| == i
      invariant forall k :: 0 <= k < i ==>
                  && turns[k].parts == [history[k].text]
                  && turns[k].role == (if history[k].kind == "user" then "user" else "model")
    {
      var role := if history[i].kind == "user" then "user" else "model";
      turns := turns + [ModelTurn(role, [history[i].text])];
    }
  }

  /** The module-level `REPO_CACHE` and `DB` of the backend. */
  class Backend {
    var repoCache: map<string, string>
    var currentUser: Option<UserRecord>

    /** Both writers of the cache store only texts of at least 100 characters. */
    ghost predicate Valid()
      reads this
    {
      forall key :: key in repoCache ==> |repoCache[key]| >= 100
    }

    constructor()
      ensures Valid() && repoCache == map[] && currentUser == None
    {
      repoCache := map[];
      currentUser := None;
    }

    /** `/analyze` after the resume is parsed: picks the code context (cache,
        fetch, or one of the two fixed texts), caches a fetched text longer than
        100 characters, records the current user with the code cut to 50000
        characters, and answers with the analysis and its chat message.
        `resumeMatch` is the first regex match in the resume, `fetched` what the
        repository fetcher returns on a cache miss, `analysis` the analyzer's
        JSON text and `decoded` its lists when it decodes. */
    method AnalyzePortfolio(resumeText: string, githubUrl: Option<string>, resumeMatch: Option<RepoMatch>,
                            fetched: string, analysis: string, decoded: Option<AnalysisLists>)
      returns (response: AnalyzeResponse)
      requires Valid()
      modifies this
      ensures Valid()
      ensures var target := TargetUrl(githubUrl, resumeMatch);
              var code := AnalyzeContext(old(repoCache), target, fetched);
              && currentUser == Some(UserRecord(resumeText, Take(code, 50000), analysis))
              && repoCache == (if target.Some? && KeyOf(target.value).Some? && KeyOf(target.value).value !in old(repoCache)
                                  && |fetched| > 100
                               then old(repoCache)[KeyOf(target.value).value := fetched]
                               else old(repoCache))
      ensures response == AnalyzeResponse(analysis, ChatMessage(decoded))
    {
      var target := TargetUrl(githubUrl, resumeMatch);
      var code := "";
      if target.Some? {
        var d := ExtractGithubDetails(target);
        if d.Details? && d.owner != "" && d.repo != "" {
          var key := CacheKey(d.owner, d.repo, d.branch);
          if key in repoCache {
            code := repoCache[key];
          } else {
            code := fetched;
            if |code| > 100 {
              repoCache := repoCache[key := code];
            }
          }
        } else {
          code := InvalidUrlContext;
        }
      } else {
        code := NoUrlContext;
      }
      currentUser := Some(UserRecord(resumeText, Take(code, 50000), analysis));
      response := AnalyzeResponse(analysis, ChatMessage(decoded));
    }

    /** `/add_repo`: an unparsable URL or one without owner or repo is an
        error; otherwise the code comes from the cache or the fetcher (cached
        when at least 100 characters); less than 100 characters is denied;
        else the bullets are generated and, when there is a current user, a
        marked excerpt of 20000 characters is appended to their code. */
    method AddRepoContext(githubUrl: string, fetched: string, model: Reply<string>)
      returns (response: AddRepoResponse)
      requires Valid()
      modifies this
      ensures Valid()
      ensures KeyOf(githubUrl).None? ==> response == InvalidUrl && repoCache == old(repoCache) && currentUser == old(currentUser)
      ensures KeyOf(githubUrl).Some? ==>
                var key := KeyOf(githubUrl).value;
                var code := if key in old(repoCache) then old(repoCache)[key] else fetched;
                && repoCache == (if key !in old(repoCache) && |fetched| >= 100 then old(repoCache)[key := fetched] else old(repoCache))
                && (|code| < 100 ==> response == AccessDenied && currentUser == old(currentUser))
                && (|code| >= 100 ==> response == RepoBullets(Brain.StarBullets(code, model)))
                && (|code| >= 100 && old(currentUser).Some? ==>
                      currentUser == Some(old(currentUser).value.(code := old(currentUser).value.code
                        + "\n\n--- NEW REPO: " + ExtractGithubDetails(Some(githubUrl)).repo + " ---\n" + Take(code, 20000))))
                && (old(currentUser).None? ==> currentUser == None)
    {
      var d := ExtractGithubDetails(Some(githubUrl));
      if !(d.Details? && d.owner != "" && d.repo != "") {
        return InvalidUrl;
      }
      var key := CacheKey(d.owner, d.repo, d.branch);
      var code;
      if key in repoCache {
        code := repoCache[key];
      } else {
        code := fetched;
        if |code| >= 100 {
          repoCache := repoCache[key := code];
        }
      }
      if |code| < 100 {
        return AccessDenied;
      }
      var bullets := Brain.StarBullets(code, model);
      if currentUser.Some? {
        var user := currentUser.value;
        currentUser := Some(user.(code := user.code + "\n\n--- NEW REPO: " + d.repo + " ---\n" + Take(code, 20000)));
      }
      response := RepoBullets(bullets);
    }

    /** `/chat`: without a current user the fixed error text and no model call;
        otherwise the mapped history goes to the model (`sent`) and its answer
        (or the text of its failure) comes back. */
    method ChatEndpoint(message: string, history: seq<HistoryItem>, model: Reply<string>)
      returns (response: string, sent: Option<seq<ModelTurn>>)
      ensures currentUser.None? ==> response == ChatNoData && sent == None
      ensures currentUser.Some? ==> sent.Some? && |sent.value| == |history|
      ensures currentUser.Some? ==> forall i :: 0 <= i < |history| ==>
                && sent.value[i].role == (if history[i].kind == "user" then "user" else "model")
                && sent.value[i].parts == [history[i].text]
      ensures currentUser.Some? && model.Ok? ==> response == model.value
      ensures currentUser.Some? && model.Failed? ==> response == "The Matrix is glitching... " + model.message
    {
      if currentUser.None? {
        return ChatNoData, None;
      }
      var turns := MapHistory(history);
      sent := Some(turns);
      response := match model
        case Ok(text) => text
        case Failed(e) => "The Matrix is glitching... " + e;
    }
  }

  /** Bullets are always generated from at least 100 characters of code on the
      `/add_repo` path, so the no-code warning never reaches its caller there. */
  lemma AddRepoPastGuard(code: string, model: Reply<string>)
    requires |code| >= 100 && model.Ok?
    ensures Brain.StarBullets(code, model) == model.value
  {
  }
}
