/** How the voice assistant turns one lower-cased utterance into effects:
    keyword classification, target extraction, and the fixed tables behind
    "open ..." and "close ...". Effects are returned as `Action` values. */
module Dispatch {
  import opened Common
  import opened Text
  import TimeFormat

  /** One observable effect of the assistant. */
  datatype Action =
    | Launch(path: string, args: seq<string>)   // subprocess.Popen
    | OpenUrl(url: string)                      // webbrowser.open
    | PlayMedia(term: string)                   // pywhatkit.playonyt
    | Kill(exe: string)                         // taskkill /f /im <exe>
    | CloseVideoTab                             // close_youtube_tab() is invoked
    | ClickTab(index: nat)                      // click on the tab at this position
    | PressKeys(keys: string)                   // a simulated key chord
    | Say(text: string)                         // text-to-speech
    | Exit                                      // sys.exit()
    | Ask(query: string)                        // the utterance goes to the generator

  /** What an utterance asks for, in the order the keywords are tested. */
  datatype Command =
    | Quit
    | Open(target: string)
    | Close(target: string)
    | TellTime
    | Query(text: string)

  const Farewell := "Goodbye sir! Have a great day!"

  /** Executables launched by "open <name>". */
  const Apps: map<string, string> := map[
    "chrome" := @"C:\Program Files\Google\Chrome\Application\chrome.exe",
    "edge" := @"C:\Program Files (x86)\Microsoft\Edge\Application\msedge.exe",
    "notepad" := "notepad.exe",
    "calculator" := "calc.exe"
  ]

  /** Sites opened in the browser by "open <name>". */
  const Websites: map<string, string> := map[
    "youtube" := "https://youtube.com",
    "google" := "https://google.com"
  ]

  /** Image names killed by "close <name>". */
  const Processes: map<string, string> := map[
    "chrome" := "chrome.exe",
    "edge" := "msedge.exe",
    "notepad" := "notepad.exe",
    "calculator" := "calc.exe"
  ]

  /** Edge is started with a debugging port so its tabs can be automated. */
  const EdgeDebugFlag := "--remote-debugging-port=9222"

  /** Effects that neither end the assistant nor consult the generator. */
  predicate Local(acts: seq<Action>)
  {
    forall i :: 0 <= i < |acts| ==> !acts[i].Exit? && !acts[i].Ask?
  }

  predicate IsExitPhrase(q: string)
  {
    Contains(q, "stop") || Contains(q, "goodbye") || Contains(q, "thankyou")
  }

  /** The target of "open"/"close": every occurrence of the keyword deleted,
      then the surrounding white space stripped. */
  function Extract(q: string, keyword: string): (target: string)
    requires |keyword| > 0
    ensures |target| <= |q|
    ensures target == [] || (!IsSpace(target[0]) && !IsSpace(target[|target| - 1]))
  {
    Strip(ReplaceAll(q, keyword))
  }

  /** Keyword classification by substring containment, first match wins:
      exit words, then "open", then "close", then "time". */
  function Classify(q: string): (c: Command)
    ensures c == Quit <==> IsExitPhrase(q)
    ensures c.Query? ==> c.text == q
  {
    if IsExitPhrase(q) then Quit
    else if Contains(q, "open") then Open(Extract(q, "open"))
    else if Contains(q, "close") then Close(Extract(q, "close"))
    else if Contains(q, "time") then TellTime
    else Query(q)
  }

  /** The priority order of the classifier, and that only an utterance with no
      keyword at all reaches the generator, unchanged. */
  lemma ClassifyPriority(q: string)
    ensures IsExitPhrase(q) ==> Classify(q) == Quit
    ensures !IsExitPhrase(q) && Contains(q, "open") ==> Classify(q) == Open(Extract(q, "open"))
    ensures (!IsExitPhrase(q) && !Contains(q, "open") && Contains(q, "close"))
              ==> Classify(q) == Close(Extract(q, "close"))
    ensures Classify(q) == TellTime <==>
              !IsExitPhrase(q) && !Contains(q, "open") && !Contains(q, "close") && Contains(q, "time")
    ensures Classify(q).Query? <==>
              !IsExitPhrase(q) && !Contains(q, "open") && !Contains(q, "close") && !Contains(q, "time")
    ensures Classify(q).Query? ==> Classify(q).text == q
  {
  }

  /** "thank you" with a space is not an exit phrase: it goes to the generator. */
  lemma ThankYouWithSpaceIsAQuery()
    ensures Classify("thank you") == Query("thank you")
  {
    ThankYouHasNoKeyword("thank you");
  }

  lemma ThankYouHasNoKeyword(q: string)
    requires q == "thank you"
    ensures !Contains(q, "stop") && !Contains(q, "goodbye") && !Contains(q, "thankyou")
    ensures !Contains(q, "open") && !Contains(q, "close") && !Contains(q, "time")
  {
    MissingCharNotContained(q, "stop", 's');
    MissingCharNotContained(q, "goodbye", 'g');
    MissingCharNotContained(q, "open", 'p');
    MissingCharNotContained(q, "close", 'c');
    MissingCharNotContained(q, "time", 'i');
    assert !StartsWith(q, "thankyou") by { assert q[5] != "thankyou"[5]; }
    assert !StartsWith(q[1..], "thankyou") by { assert q[1..][0] != "thankyou"[0]; }
    ContainsShort(q[2..], "thankyou");
  }

  /** When the keyword opens the utterance, is followed by a space and occurs
      nowhere else, the extracted target is exactly the rest of the words. */
  lemma ExtractAfterKeyword(keyword: string, rest: string)
    requires |keyword| > 0 && !IsSpace(keyword[0])
    requires !Contains(rest, keyword)
    requires rest == [] || (!IsSpace(rest[0]) && !IsSpace(rest[|rest| - 1]))
    ensures Extract(keyword + " " + rest, keyword) == rest
  {
    var q := keyword + " " + rest;
    assert q[..|keyword|] == keyword;
    assert q[|keyword|..] == " " + rest;
    assert !StartsWith(" " + rest, keyword);
    assert (" " + rest)[1..] == rest;
    assert !Contains(" " + rest, keyword);
    ReplaceAllChanges(" " + rest, keyword);
    assert ReplaceAll(q, keyword) == " " + rest;
    assert SkipSpace(" " + rest, 0) == 1;
  }

  /** "open notepad" is an open command whose target is "notepad" ... */
  lemma OpenNotepadClassified()
    ensures Classify("open notepad") == Open("notepad")
  {
    NotepadLacksOpen("notepad");
    OpenNotepadIsOpen("open notepad");
    OpenNotepadTarget("open notepad", "notepad");
  }

  /** ... and that target launches the Notepad executable. */
  lemma OpenNotepadLaunches()
    ensures OpenSoftware("notepad") == [Say("Opening notepad"), Launch("notepad.exe", [])]
  {
    NotepadIsLower("notepad");
    assert "Opening " + "notepad" == "Opening notepad";
  }

  lemma NotepadLacksOpen(n: string)
    requires n == "notepad"
    ensures !Contains(n, "open")
  {
    assert !StartsWith(n, "open") by { assert n[0] != 'o'; }
    assert !StartsWith(n[1..], "open") by { assert n[1..][1] != 'p'; }
    assert !StartsWith(n[2..], "open") by { assert n[2..][0] != 'o'; }
    assert !StartsWith(n[3..], "open") by { assert n[3..][0] != 'o'; }
    ContainsShort(n[4..], "open");
    assert n[1..][1..] == n[2..] && n[2..][1..] == n[3..] && n[3..][1..] == n[4..];
    assert !Contains(n[3..], "open");
    assert !Contains(n[2..], "open");
    assert !Contains(n[1..], "open");
  }

  lemma OpenNotepadIsOpen(q: string)
    requires q == "open notepad"
    ensures !IsExitPhrase(q) && Contains(q, "open")
  {
    assert StartsWith(q, "open");
    MissingCharNotContained(q, "stop", 's');
    MissingCharNotContained(q, "goodbye", 'g');
    MissingCharNotContained(q, "thankyou", 'h');
  }

  lemma OpenNotepadTarget(q: string, n: string)
    requires q == "open notepad" && n == "notepad" && !Contains(n, "open")
    ensures Extract(q, "open") == n
  {
    assert q == "open" + " " + n;
    ExtractAfterKeyword("open", n);
  }

  lemma NotepadIsLower(n: string)
    requires n == "notepad"
    ensures Lower(n) == n && n in Apps && Apps[n] == "notepad.exe"
  {
  }

  /** `open_software`: the application table, then the website table, then the
      "play" fallback, then the not-found message. */
  function OpenSoftware(name: string): (acts: seq<Action>)
    ensures 1 <= |acts| <= 2 && acts[0].Say?
  {
    var n := Lower(name);
    if n in Apps then
      [Say("Opening " + n), Launch(Apps[n], if n == "edge" then [EdgeDebugFlag] else [])]
    else if n in Websites then
      [Say("Opening " + n), OpenUrl(Websites[n])]
    else if Contains(n, "play") then
      var song := Strip(ReplaceAll(n, "play"));
      [Say("Playing " + song + " on YouTube"), PlayMedia(song)]
    else
      [Say("Couldn't find " + n)]
  }

  /** "open" launches exactly the application names, and passes the extra
      argument to Edge alone. */
  lemma OpenLaunchesApps(name: string)
    ensures var n := Lower(name);
      forall p, a :: Launch(p, a) in OpenSoftware(name) <==>
        n in Apps && p == Apps[n] && a == (if n == "edge" then [EdgeDebugFlag] else [])
  {
  }

  /** A website is opened only for a name that is not an application. */
  lemma OpenWebsitesSecond(name: string)
    ensures var n := Lower(name);
      forall u :: OpenUrl(u) in OpenSoftware(name) <==> n !in Apps && n in Websites && u == Websites[n]
  {
  }

  /** Media is played only for a name in neither table that contains "play"
      anywhere, and the term is the name with every "play" deleted, stripped. */
  lemma OpenPlaysMediaLast(name: string)
    ensures var n := Lower(name);
      forall t :: PlayMedia(t) in OpenSoftware(name) <==>
        n !in Apps && n !in Websites && Contains(n, "play") && t == Strip(ReplaceAll(n, "play"))
  {
  }

  /** Every other name gets only the not-found message; "open" never exits and
      never touches tabs. */
  lemma OpenNotFound(name: string)
    ensures var n := Lower(name);
      OpenSoftware(name) == [Say("Couldn't find " + n)] <==>
        n !in Apps && n !in Websites && !Contains(n, "play")
  {
  }

  /** "open" never ends the assistant, never consults the generator and never
      touches tabs. */
  lemma OpenIsLocal(name: string)
    ensures Local(OpenSoftware(name)) && CloseVideoTab !in OpenSoftware(name)
  {
    var n := Lower(name);
    if n in Apps {
    } else if n in Websites {
    } else if Contains(n, "play") {
    } else {
    }
  }

  /** Only Edge is given the remote-debugging argument. */
  lemma OnlyEdgeGetsDebugPort(name: string, p: string, a: seq<string>)
    requires Launch(p, a) in OpenSoftware(name)
    ensures a != [] <==> Lower(name) == "edge"
    ensures a != [] ==> a == [EdgeDebugFlag]
  {
    OpenLaunchesApps(name);
  }

  /** "play" is a substring test, not a prefix test, and every "play" is removed
      from the media term. */
  lemma ReplayIsPlayed(n: string)
    requires n == "replay it"
    ensures OpenSoftware(n) == [Say("Playing re it on YouTube"), PlayMedia("re it")]
  {
    ReplayInNoTable(n);
    ReplayContainsPlay(n);
    ReplayWithoutPlay(n);
    ReItIsStripped("re it");
    assert "Playing " + "re it" + " on YouTube" == "Playing re it on YouTube";
  }

  lemma ReplayInNoTable(n: string)
    requires n == "replay it"
    ensures Lower(n) == n && n !in Apps && n !in Websites
  {
  }

  lemma ReplayContainsPlay(n: string)
    requires n == "replay it"
    ensures Contains(n, "play")
  {
    assert StartsWith(n[2..], "play");
    assert Contains(n[1..], "play");
  }

  lemma ReplayWithoutPlay(n: string)
    requires n == "replay it"
    ensures ReplaceAll(n, "play") == "re it"
  {
    assert ReplaceAll(n[6..], "play") == " it";
    assert ReplaceAll(n[2..], "play") == " it";
    assert ReplaceAll(n[1..], "play") == "e it";
  }

  lemma ReItIsStripped(n: string)
    requires n == "re it"
    ensures Strip(n) == n
  {
    assert SkipSpace(n, 0) == 0;
    assert SkipSpaceBack(n, 0, |n|) == |n|;
  }

  /** `close_software`: kill the mapped image for a known name; otherwise close
      the video tab if the name mentions "youtube" or "video"; otherwise say so. */
  function CloseSoftware(name: string): (acts: seq<Action>)
    ensures 1 <= |acts| <= 2
    ensures acts[0].Say? || acts == [CloseVideoTab]
  {
    var n := Lower(name);
    if n in Processes then [Say("Closing " + n), Kill(Processes[n])]
    else if Contains(n, "youtube") || Contains(n, "video") then [CloseVideoTab]
    else [Say("Don't know how to close " + n)]
  }

  /** What "close" resolves to, with names lower-cased before every lookup. */
  lemma CloseSoftwareResolution(name: string)
    ensures var n := Lower(name);
      var acts := CloseSoftware(name);
      && (forall e :: Kill(e) in acts <==> n in Processes && e == Processes[n])
      && (CloseVideoTab in acts <==>
            n !in Processes && (Contains(n, "youtube") || Contains(n, "video")))
      && (acts == [Say("Don't know how to close " + n)] <==>
            n !in Processes && !Contains(n, "youtube") && !Contains(n, "video"))
      && |acts| <= 2 && Local(acts)
  {
  }

  /** Upper and lower case name the same program. */
  lemma CloseIgnoresCase(name: string)
    ensures CloseSoftware(Lower(name)) == CloseSoftware(name)
    ensures OpenSoftware(Lower(name)) == OpenSoftware(name)
  {
    LowerIdempotent(name);
  }

  /** `generate_response`: the generated text, or an apology that carries the
      error message. */
  function ReplyText(o: Outcome): (r: string)
    ensures o.Ok? ==> r == o.text
    ensures o.Err? ==> |r| >= |o.message| && r[|r| - |o.message|..] == o.message
                       && r[..|r| - |o.message|] == "Sorry, I encountered an error: "
  {
    match o
    case Ok(t) => t
    case Err(e) => "Sorry, I encountered an error: " + e
  }

  /** The spoken time announcement. */
  function TimeAnnouncement(c: TimeFormat.Clock): (s: string)
    ensures |s| == |"The time is "| + 8 && s[..12] == "The time is "
    ensures TimeFormat.Parse(s[12..]) == Some(c)
  {
    TimeFormat.ParseFormat(c);
    assert ("The time is " + TimeFormat.Format(c))[12..] == TimeFormat.Format(c);
    "The time is " + TimeFormat.Format(c)
  }
}
