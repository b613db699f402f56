/** The command-line front end (main.py): the environment check, the choice
    of topic from the argument or the interactive prompt, the report file
    name and the preview printed after a run. Printing, `argparse`, the file
    write and the process exit codes are not modelled beyond the decision
    they encode. */
module Cli {
  import opened Text
  import opened State
  import Settings
  import App
  import Graph

  // ----------------------------------------------------------- environment

  /** `validate_environment`: the run goes ahead exactly when the
      configuration built from `env` reports no error. */
  method ValidateEnvironment(env: map<string, string>) returns (ok: bool)
    ensures ok <==> Settings.ValidationErrors(Settings.GetEnv(env, "TAVILY_API_KEY", ""),
                                              Lower(Settings.GetEnv(env, "LLM_PROVIDER", "anthropic")),
                                              Settings.GetEnv(env, "ANTHROPIC_API_KEY", ""),
                                              Settings.GetEnv(env, "OPENAI_API_KEY", "")) == []
  {
    var config := new Settings.Config(env);
    var errors := config.Validate();
    ok := errors == [];
  }

  /** Without a Tavily key the CLI never starts a run. */
  lemma MissingTavilyKeyStops(env: map<string, string>)
    requires "TAVILY_API_KEY" !in env
    ensures Settings.ValidationErrors(Settings.GetEnv(env, "TAVILY_API_KEY", ""),
                                      Lower(Settings.GetEnv(env, "LLM_PROVIDER", "anthropic")),
                                      Settings.GetEnv(env, "ANTHROPIC_API_KEY", ""),
                                      Settings.GetEnv(env, "OPENAI_API_KEY", "")) != []
  {
    Settings.ValidationErrorsSpec("", Lower(Settings.GetEnv(env, "LLM_PROVIDER", "anthropic")),
                                  Settings.GetEnv(env, "ANTHROPIC_API_KEY", ""),
                                  Settings.GetEnv(env, "OPENAI_API_KEY", ""));
  }

  // ----------------------------------------------------------------- topic

  /** What `main` does with its topic: run on it, leave on a quit word, or
      stop for want of a topic. */
  datatype Decision = Run(topic: string) | Quit | NoTopic

  const QuitWords: seq<string> := ["quit", "exit", "q"]

  /** The argument topic is used as given; without one the typed line is
      stripped, and a quit word in any letter case ends the program. */
  function ChooseTopic(argument: Option<string>, typed: string): (d: Decision)
    ensures argument.Some? && argument.value != "" ==> d == Run(argument.value)
    ensures (argument.None? || argument.value == "") ==>
      (d == Quit <==> Lower(Strip(typed)) in QuitWords)
    ensures (argument.None? || argument.value == "") && Lower(Strip(typed)) !in QuitWords ==>
      d == (if Strip(typed) == "" then NoTopic else Run(Strip(typed)))
  {
    if argument.Some? && argument.value != "" then Run(argument.value)
    else
      var topic := Strip(typed);
      if Lower(topic) in QuitWords then Quit
      else if topic == "" then NoTopic
      else Run(topic)
  }

  /** A quit word in any letter case, with any whitespace padding, ends
      the program when no topic argument is given. */
  lemma QuitIgnoresCase(pre: string, word: string, post: string)
    requires AllSpace(pre) && AllSpace(post) && Lower(word) in QuitWords
    ensures ChooseTopic(None, pre + word + post) == Quit
  {
    var lowered := Lower(word);
    QuitWordsAreLetters(lowered);
    assert !IsSpace(word[0]) by {
      assert LowerChar(word[0]) == lowered[0];
    }
    assert !IsSpace(word[|word| - 1]) by {
      assert LowerChar(word[|word| - 1]) == lowered[|word| - 1];
    }
    StripUnpadded(word);
    StripPadding(pre, word, post);
  }

  lemma QuitWordsAreLetters(w: string)
    requires w in QuitWords
    ensures w != [] && forall i :: 0 <= i < |w| ==> 'a' <= w[i] <= 'z'
  {
    assert w == QuitWords[0] || w == QuitWords[1] || w == QuitWords[2];
  }

  // -------------------------------------------------------------- file name

  /** The topic part of the CLI's file name: sanitised as in the Streamlit
      front end, cut to 50 characters, then stripped, then spaces turned
      into underscores. */
  function SafeTopic(topic: string): (r: string)
    ensures |r| <= 50
    ensures forall i :: 0 <= i < |r| ==> IsAlnum(r[i]) || r[i] == '-' || r[i] == '_'
  {
    var cut := Take(App.SafeChars(topic), 50);
    var stripped := Strip(cut);
    StripInside(cut);
    ReplaceChar(stripped, ' ', '_')
  }

  function ReportFileName(timestamp: string, topic: string): string {
    timestamp + "_" + SafeTopic(topic) + ".md"
  }

  /** The two front ends name a report alike unless its sanitised, cut topic
      starts or ends with a space: only the CLI strips. */
  lemma SanitisersAgree(topic: string)
    requires var cut := Take(App.SafeChars(topic), 50);
      cut == [] || (cut[0] != ' ' && cut[|cut| - 1] != ' ')
    ensures SafeTopic(topic) == App.SafeTopic(topic)
  {
    var cut := Take(App.SafeChars(topic), 50);
    StripUnpadded(cut);
  }

  /** Conversely, a sanitised, cut topic that starts or ends with a space
      names the report differently: the Streamlit name keeps that space as an
      underscore, the CLI strips it and its name is shorter. */
  lemma SanitisersDiffer(topic: string)
    requires var cut := Take(App.SafeChars(topic), 50);
      cut != [] && (cut[0] == ' ' || cut[|cut| - 1] == ' ')
    ensures |SafeTopic(topic)| < |App.SafeTopic(topic)|
    ensures var cut := Take(App.SafeChars(topic), 50);
      && (cut[0] == ' ' ==> App.SafeTopic(topic)[0] == '_')
      && (cut[|cut| - 1] == ' ' ==> App.SafeTopic(topic)[|cut| - 1] == '_')
  {
    var cut := Take(App.SafeChars(topic), 50);
    var left := LStrip(cut);
    if cut[0] != ' ' && left != [] {
      assert left[|left| - 1] == cut[|cut| - 1];
    }
    assert |Strip(cut)| < |cut|;
  }

  // --------------------------------------------------------------- preview

  const PreviewLimit: nat := 2000

  /** The preview: the first 2000 characters, with a truncation notice
      exactly when the report is longer. */
  function Preview(report: string): (r: (string, bool))
    ensures r.1 <==> |report| > PreviewLimit
    ensures |r.0| == Min(PreviewLimit, |report|) && r.0 <= report
    ensures !r.1 ==> r.0 == report
  {
    (if |report| > PreviewLimit then report[..PreviewLimit] else report, |report| > PreviewLimit)
  }

  // ------------------------------------------------------------------- run

  /** What `run_cli` leaves behind: the saved file's name and the preview. */
  datatype Outcome = Outcome(fileName: Option<string>, preview: string, truncated: bool)

  /** `run_cli`. The `max_revisions` argument is accepted but never passed on:
      the research runs with the default ceiling of two refinements whatever
      the caller asked for. */
  method RunCli(topic: string, maxRevisions: int, timestamp: string, env: Graph.Env)
    returns (o: Outcome, final: AgentState, loops: nat)
    ensures loops <= 2
    ensures final.topic == topic && final.status == Complete && final.revisionNumber == loops
    ensures o.fileName == Some(ReportFileName(timestamp, topic))
    ensures (o.preview, o.truncated) == Preview(final.finalReport)
  {
    var trace;
    final, trace, loops := Graph.RunResearch(topic, env);
    var report := final.finalReport;
    if report != "" {
      var p := Preview(report);
      o := Outcome(Some(ReportFileName(timestamp, topic)), p.0, p.1);
    } else {
      o := Outcome(None, "", false);
    }
  }
}
