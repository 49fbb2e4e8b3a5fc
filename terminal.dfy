/**
 * The terminal view: an input line and a transcript of (command, output)
 * entries. Pressing Enter normalises the input line (trim, then lower-case),
 * dispatches it over a fixed command table and clears the input line.
 * `clear` empties the transcript; every other input, the blank one included,
 * appends exactly one entry. Outputs are abstract tags, not markup.
 */
module Terminal {

  /** What an entry displays, one tag per branch of the command switch. */
  datatype Output =
    | Welcome
    | Help
    | WhoAmI
    | Achievements
    | Projects
    | Skills
    | Competitive
    | Contact
    | Empty
    | NotFound(command: string)

  datatype Entry = Entry(command: string, output: Output)

  /** The effect of dispatching a normalised command on the transcript. */
  datatype Action = ClearAll | Append(output: Output)

  /** The commands the switch recognises. */
  const Commands: set<string> :=
    {"help", "whoami", "achievements", "projects", "skills", "competitive", "contact", "clear"}

  /** The transcript once the mount effect has run: one welcome entry, no prompt. */
  const InitialTranscript: seq<Entry> := [Entry("", Welcome)]

  // ---------------------------------------------------------------------
  // String normalisation: `cmd.trim().toLowerCase()`
  // ---------------------------------------------------------------------

  /** The code points JavaScript's `trim` removes: WhiteSpace and LineTerminator. */
  predicate IsWhitespace(c: char)
  {
    || c == '\t' || c == '\n' || c == '\U{000B}' || c == '\U{000C}' || c == '\r'
    || c == ' ' || c == '\U{00A0}' || c == '\U{1680}' || ('\U{2000}' <= c <= '\U{200A}')
    || c == '\U{2028}' || c == '\U{2029}' || c == '\U{202F}' || c == '\U{205F}'
    || c == '\U{3000}' || c == '\U{FEFF}'
  }

  /** The number of whitespace characters at the start of `s`. */
  function LeadingSpace(s: string): (n: nat)
    ensures n <= |s|
    ensures forall i :: 0 <= i < n ==> IsWhitespace(s[i])
    ensures n < |s| ==> !IsWhitespace(s[n])
  {
    if s != [] && IsWhitespace(s[0]) then 1 + LeadingSpace(s[1..]) else 0
  }

  /** The number of whitespace characters at the end of `s`. */
  function TrailingSpace(s: string): (n: nat)
    ensures n <= |s|
    ensures forall i :: |s| - n <= i < |s| ==> IsWhitespace(s[i])
    ensures n < |s| ==> !IsWhitespace(s[|s| - 1 - n])
  {
    if s != [] && IsWhitespace(s[|s| - 1]) then 1 + TrailingSpace(s[..|s| - 1]) else 0
  }

  /** `String.prototype.trim`: the part of `s` between its leading and trailing whitespace. */
  function Trim(s: string): (r: string)
    ensures r == [] <==> forall i :: 0 <= i < |s| ==> IsWhitespace(s[i])
    ensures r != [] ==> !IsWhitespace(r[0]) && !IsWhitespace(r[|r| - 1])
    ensures r != [] ==> LeadingSpace(s) + |r| + TrailingSpace(s) == |s|
    ensures r == s[LeadingSpace(s)..LeadingSpace(s) + |r|]
  {
    var lead := LeadingSpace(s);
    if lead == |s| then []
    else
      assert !IsWhitespace(s[lead]);
      s[lead..|s| - TrailingSpace(s)]
  }

  /**
   * `toLowerCase` on one character: ASCII capitals, and KELVIN SIGN, the one
   * other code point that lower-cases to a single ASCII letter.
   */
  function LowerChar(c: char): char
  {
    if 'A' <= c <= 'Z' then (c as int + 32) as char
    else if c == '\U{212A}' then 'k'
    else c
  }

  /** `String.prototype.toLowerCase`, character by character. */
  function Lower(s: string): (r: string)
    ensures |r| == |s|
    ensures forall i :: 0 <= i < |s| ==> r[i] == LowerChar(s[i])
  {
    if s == [] then [] else [LowerChar(s[0])] + Lower(s[1..])
  }

  /** The command `processCommand` switches on. */
  function Normalize(cmd: string): string
  {
    Lower(Trim(cmd))
  }

  // ---------------------------------------------------------------------
  // Dispatch
  // ---------------------------------------------------------------------

  /** The `switch (command)` of `processCommand`. */
  function Dispatch(command: string): Action
  {
    match command
    case "help" => Append(Help)
    case "whoami" => Append(WhoAmI)
    case "achievements" => Append(Achievements)
    case "projects" => Append(Projects)
    case "skills" => Append(Skills)
    case "competitive" => Append(Competitive)
    case "contact" => Append(Contact)
    case "clear" => ClearAll
    case "" => Append(Empty)
    case _ => Append(NotFound(command))
  }

  /** The transcript after `processCommand(cmd)`. */
  function AfterCommand(transcript: seq<Entry>, cmd: string): seq<Entry>
  {
    var command := Normalize(cmd);
    match Dispatch(command)
    case ClearAll => []
    case Append(output) => transcript + [Entry(command, output)]
  }

  /** An entry renders the `hacker@portfolio:~$` prompt line only when its command is non-empty. */
  predicate ShowsPrompt(e: Entry)
  {
    e.command != ""
  }

  // ---------------------------------------------------------------------
  // The component's state and its events
  // ---------------------------------------------------------------------

  datatype Session = Session(input: string, transcript: seq<Entry>)

  /** The events the component handles: an input change, or a key press. */
  datatype Event = Change(value: string) | KeyDown(key: string)

  /** `handleInputChange` and `handleKeyDown`: only Enter is acted on. */
  function Step(s: Session, e: Event): Session
  {
    match e
    case Change(value) => Session(value, s.transcript)
    case KeyDown(key) =>
      if key == "Enter" then Session("", AfterCommand(s.transcript, s.input)) else s
  }

  function Run(s: Session, events: seq<Event>): Session
    decreases |events|
  {
    if events == [] then s else Run(Step(s, events[0]), events[1..])
  }

  /** `processCommand(cmd)` applied `n` times in a row. */
  function Repeat(transcript: seq<Entry>, cmd: string, n: nat): seq<Entry>
  {
    if n == 0 then transcript else AfterCommand(Repeat(transcript, cmd, n - 1), cmd)
  }

  /**
   * A transcript entry that the component can have produced: the welcome
   * entry at the front, or a normalised command with its dispatched output.
   */
  predicate EntryOk(e: Entry, k: nat)
  {
    || (k == 0 && e == Entry("", Welcome))
    || (Normalize(e.command) == e.command && Dispatch(e.command) == Append(e.output))
  }

  predicate WellFormed(t: seq<Entry>)
  {
    forall k :: 0 <= k < |t| ==> EntryOk(t[k], k)
  }

  class TerminalView {
    var input: string
    var commandHistory: seq<Entry>

    ghost predicate Valid()
      reads this
    {
      WellFormed(commandHistory)
    }

    function Snapshot(): Session
      reads this
    {
      Session(input, commandHistory)
    }

    /** The component once mounted: empty input line, the welcome entry. */
    constructor ()
      ensures Valid()
      ensures input == "" && commandHistory == InitialTranscript
    {
      input := "";
      commandHistory := InitialTranscript;
    }

    method HandleInputChange(value: string)
      requires Valid()
      modifies this
      ensures Valid()
      ensures Snapshot() == Step(old(Snapshot()), Change(value))
    {
      input := value;
    }

    method HandleKeyDown(key: string)
      requires Valid()
      modifies this
      ensures Valid()
      ensures Snapshot() == Step(old(Snapshot()), KeyDown(key))
    {
      if key == "Enter" {
        ProcessCommand(input);
        input := "";
      }
    }

    method ProcessCommand(cmd: string)
      requires Valid()
      modifies this`commandHistory
      ensures Valid()
      ensures commandHistory == AfterCommand(old(commandHistory), cmd)
    {
      var command := Normalize(cmd);
      match Dispatch(command)
      case ClearAll =>
        commandHistory := [];
      case Append(output) =>
        commandHistory := commandHistory + [Entry(command, output)];
      AfterCommandWellFormed(old(commandHistory), cmd);
    }
  }

  // ---------------------------------------------------------------------
  // Properties
  // ---------------------------------------------------------------------

  lemma LowerCharKeepsWhitespace(c: char)
    ensures IsWhitespace(LowerChar(c)) == IsWhitespace(c)
    ensures LowerChar(LowerChar(c)) == LowerChar(c)
  {
  }

  /** A string without leading or trailing whitespace is its own trim. */
  lemma TrimOfTrimmed(s: string)
    requires s != [] ==> !IsWhitespace(s[0]) && !IsWhitespace(s[|s| - 1])
    ensures Trim(s) == s
  {
    if s != [] {
      assert LeadingSpace(s) == 0;
      assert TrailingSpace(s) == 0;
    }
  }

  /** Normalising is idempotent: a normalised command normalises to itself. */
  lemma NormalizeIdempotent(cmd: string)
    ensures Normalize(Normalize(cmd)) == Normalize(cmd)
  {
    var t := Trim(cmd);
    var l := Lower(t);
    if l != [] {
      LowerCharKeepsWhitespace(t[0]);
      LowerCharKeepsWhitespace(t[|t| - 1]);
    }
    TrimOfTrimmed(l);
    forall i | 0 <= i < |l|
      ensures Lower(l)[i] == l[i]
    {
      LowerCharKeepsWhitespace(t[i]);
    }
    assert Lower(l) == l;
  }

  /** The dispatched command ignores surrounding whitespace and letter case. */
  lemma NormalizeExample()
    ensures Normalize("  HeLp ") == "help"
    ensures Dispatch(Normalize("  HeLp ")) == Dispatch("help") == Append(Help)
  {
    var s := "  HeLp ";
    assert LeadingSpace(s[2..]) == 0;
    assert LeadingSpace(s[1..]) == 1;
    assert LeadingSpace(s) == 2;
    assert TrailingSpace(s[..6]) == 0;
    assert TrailingSpace(s) == 1;
    assert Trim(s) == "HeLp";
  }

  /**
   * The command table: `clear` and only `clear` empties the transcript, the
   * empty command and only it shows nothing, the seven content commands show
   * their own output, and every other command is echoed as not found.
   */
  lemma DispatchTable(command: string)
    ensures Dispatch(command) == ClearAll <==> command == "clear"
    ensures Dispatch(command) == Append(Empty) <==> command == ""
    ensures Dispatch(command) != Append(Welcome)
    ensures (Dispatch(command).Append? && Dispatch(command).output.NotFound?)
            <==> command != "" && command !in Commands
    ensures command != "" && command !in Commands ==> Dispatch(command) == Append(NotFound(command))
    ensures command == "help" ==> Dispatch(command) == Append(Help)
    ensures command == "whoami" ==> Dispatch(command) == Append(WhoAmI)
    ensures command == "achievements" ==> Dispatch(command) == Append(Achievements)
    ensures command == "projects" ==> Dispatch(command) == Append(Projects)
    ensures command == "skills" ==> Dispatch(command) == Append(Skills)
    ensures command == "competitive" ==> Dispatch(command) == Append(Competitive)
    ensures command == "contact" ==> Dispatch(command) == Append(Contact)
  {
  }

  /** Any other non-empty command is echoed back, normalised, as not found. */
  lemma UnknownCommandEchoed(t: seq<Entry>, cmd: string)
    requires Normalize(cmd) != "" && Normalize(cmd) !in Commands
    ensures AfterCommand(t, cmd) == t + [Entry(Normalize(cmd), NotFound(Normalize(cmd)))]
  {
    DispatchTable(Normalize(cmd));
  }

  /**
   * The help text's label "Competitive Coding" is not a command: whatever
   * normalises to "competitive coding" is echoed as not found.
   */
  lemma CompetitiveCodingNotFound(t: seq<Entry>, cmd: string)
    requires Normalize(cmd) == "competitive coding"
    ensures AfterCommand(t, cmd)
            == t + [Entry("competitive coding", NotFound("competitive coding"))]
  {
    UnknownCommandEchoed(t, cmd);
  }

  /** `clear`, in any spacing and case, leaves the transcript empty and appends nothing. */
  lemma ClearEmptiesTranscript(t: seq<Entry>, cmd: string)
    requires Normalize(cmd) == "clear"
    ensures AfterCommand(t, cmd) == []
  {
  }

  /**
   * Every other command grows the transcript by exactly one entry, keeps the
   * earlier entries and records the normalised command.
   */
  lemma OtherCommandAppendsOne(t: seq<Entry>, cmd: string)
    requires Normalize(cmd) != "clear"
    ensures |AfterCommand(t, cmd)| == |t| + 1
    ensures AfterCommand(t, cmd)[..|t|] == t
    ensures AfterCommand(t, cmd)[|t|].command == Normalize(cmd)
  {
  }

  /** A blank or whitespace-only Enter is not skipped: it appends an empty entry without prompt. */
  lemma BlankInputAppendsEmpty(t: seq<Entry>, cmd: string)
    requires forall i :: 0 <= i < |cmd| ==> IsWhitespace(cmd[i])
    ensures AfterCommand(t, cmd) == t + [Entry("", Empty)]
    ensures !ShowsPrompt(AfterCommand(t, cmd)[|t|])
  {
  }

  /** Dispatch keeps no state: repeating a command appends `n` identical entries. */
  lemma {:induction false} RepeatAppendsIdentical(t: seq<Entry>, cmd: string, n: nat)
    requires Normalize(cmd) != "clear"
    ensures |Repeat(t, cmd, n)| == |t| + n
    ensures Repeat(t, cmd, n)[..|t|] == t
    ensures forall k :: |t| <= k < |t| + n ==> Repeat(t, cmd, n)[k] == AfterCommand([], cmd)[0]
  {
    if n > 0 {
      RepeatAppendsIdentical(t, cmd, n - 1);
      var prev := Repeat(t, cmd, n - 1);
      assert Repeat(t, cmd, n) == prev + AfterCommand([], cmd);
    }
  }

  /** After Enter the input line is empty and the command was the line as it stood. */
  lemma EnterProcessesInput(s: Session)
    ensures Step(s, KeyDown("Enter")).input == ""
    ensures Step(s, KeyDown("Enter")).transcript == AfterCommand(s.transcript, s.input)
  {
  }

  /** Keys other than Enter (arrows, Tab, letters) change nothing. */
  lemma OtherKeysIgnored(s: Session, key: string)
    requires key != "Enter"
    ensures Step(s, KeyDown(key)) == s
  {
  }

  /** The mount transcript is one promptless welcome entry, and is well formed. */
  lemma InitialTranscriptWellFormed()
    ensures WellFormed(InitialTranscript)
    ensures |InitialTranscript| == 1 && !ShowsPrompt(InitialTranscript[0])
  {
  }

  lemma AfterCommandWellFormed(t: seq<Entry>, cmd: string)
    requires WellFormed(t)
    ensures WellFormed(AfterCommand(t, cmd))
  {
    var command := Normalize(cmd);
    NormalizeIdempotent(cmd);
    var r := AfterCommand(t, cmd);
    if Dispatch(command).Append? {
      forall k | 0 <= k < |r|
        ensures EntryOk(r[k], k)
      {
        if k < |t| {
          assert r[k] == t[k];
        }
      }
    }
  }

  /** Every sequence of events keeps the transcript well formed. */
  lemma {:induction false} RunWellFormed(s: Session, events: seq<Event>)
    requires WellFormed(s.transcript)
    ensures WellFormed(Run(s, events).transcript)
    decreases |events|
  {
    if events != [] {
      var e := events[0];
      if e.KeyDown? && e.key == "Enter" {
        AfterCommandWellFormed(s.transcript, s.input);
      }
      RunWellFormed(Step(s, e), events[1..]);
    }
  }

  /**
   * In a well-formed transcript the welcome entry can only be the first, and
   * an entry lacks a prompt line exactly when it is the welcome or a blank entry.
   */
  lemma WellFormedEntries(t: seq<Entry>, k: nat)
    requires WellFormed(t) && k < |t|
    ensures 0 < k ==> t[k].output != Welcome
    ensures !ShowsPrompt(t[k]) <==> t[k].output == Welcome || t[k].output == Empty
    ensures t[k].output.NotFound? ==> t[k].output.command == t[k].command
  {
    DispatchTable(t[k].command);
  }
}
