/** `components/NotesDisplay.tsx`: when an edited title is committed, how a
    title becomes a file name, which toolbar controls are live, and what the
    PDF button does for a logged-out or free-plan user. */
module Notes {
  import opened Types

  // ---------------------------------------------------------------------
  // String.prototype.trim

  /** The characters `trim` strips: the ECMAScript WhiteSpace and
      LineTerminator code points. */
  predicate IsJsSpace(c: char) {
    var n := c as int;
    || (0x09 <= n <= 0x0D) || n == 0x20 || n == 0xA0 || n == 0x1680
    || (0x2000 <= n <= 0x200A) || n == 0x2028 || n == 0x2029
    || n == 0x202F || n == 0x205F || n == 0x3000 || n == 0xFEFF
  }

  function TrimStart(s: string): (r: string)
    ensures |r| <= |s| && r == s[|s| - |r|..]
    ensures r != [] ==> !IsJsSpace(r[0])
    ensures forall i :: 0 <= i < |s| - |r| ==> IsJsSpace(s[i])
  {
    if |s| > 0 && IsJsSpace(s[0]) then TrimStart(s[1..]) else s
  }

  function TrimEnd(s: string): (r: string)
    ensures |r| <= |s| && r == s[..|r|]
    ensures r != [] ==> !IsJsSpace(r[|r| - 1])
    ensures forall i :: |r| <= i < |s| ==> IsJsSpace(s[i])
  {
    if |s| > 0 && IsJsSpace(s[|s| - 1]) then TrimEnd(s[..|s| - 1]) else s
  }

  /** The two halves of `trim` fit together: `TrimEnd` leaves nothing only
      when `TrimStart` already did, which happens exactly for an all-space
      string, and otherwise keeps the first character `TrimStart` left. */
  lemma TrimHalves(s: string)
    ensures var t := TrimStart(s); var r := TrimEnd(t);
      && (r == [] ==> forall i :: 0 <= i < |s| ==> IsJsSpace(s[i]))
      && (r != [] ==> r[0] == t[0])
      && ((forall i :: 0 <= i < |s| ==> IsJsSpace(s[i])) ==> t == [])
  {
    var t := TrimStart(s);
    if t != [] {
      assert t[0] == s[|s| - |t|];
    }
  }

  /** `trim`: the string without its leading and trailing white space. It is
      empty exactly when the string is all white space, and a string with no
      white space at either end is its own trim. */
  function Trim(s: string): (r: string)
    ensures r == [] <==> forall i :: 0 <= i < |s| ==> IsJsSpace(s[i])
    ensures r != [] ==> !IsJsSpace(r[0]) && !IsJsSpace(r[|r| - 1])
    ensures s == [] || (!IsJsSpace(s[0]) && !IsJsSpace(s[|s| - 1])) ==> r == s
  {
    TrimHalves(s);
    TrimEnd(TrimStart(s))
  }

  // ---------------------------------------------------------------------
  // The title-commit rule

  predicate HasText(s: string) {
    exists i :: 0 <= i < |s| && !IsJsSpace(s[i])
  }

  /** handleTitleBlur's decision: the title to report, when the edit has some
      non-space text and differs from the current title as typed. */
  function CommitTitle(edit: string, current: string): (r: Option<string>)
    ensures r.Some? <==> HasText(edit) && edit != current
    ensures r.Some? ==> r.value == Trim(edit) && r.value != "" && Trim(r.value) == r.value
  {
    if Trim(edit) != "" && edit != current then Some(Trim(edit)) else None
  }

  /** The comparison is with the raw edit: adding a trailing space to the
      title reports the very same title again (so the note is marked unsaved),
      while an edit that trims to the current title but equals it as typed
      reports nothing. */
  lemma PaddedTitleIsRecommitted(title: string)
    requires title != "" && !IsJsSpace(title[0]) && !IsJsSpace(title[|title| - 1])
    ensures CommitTitle(title + " ", title) == Some(title)
    ensures CommitTitle(title, title) == None
  {
    var e := title + " ";
    assert e != title by {
      assert |e| != |title|;
    }
    assert TrimStart(e) == e;
    assert e[..|e| - 1] == title;
    assert TrimEnd(e) == TrimEnd(title);
    assert TrimEnd(title) == title;
  }

  /** The keys the title input reacts to. */
  datatype Key = Enter | Escape | OtherKey

  /** The title header's editing state. */
  class TitleEditor {
    /** The input's text. */
    var editableTitle: string
    var isEditingTitle: bool

    constructor (noteTitle: string)
      ensures editableTitle == noteTitle && !isEditingTitle
    {
      editableTitle := noteTitle;
      isEditingTitle := false;
    }

    /** The edit button. */
    method BeginEdit()
      modifies this
      ensures isEditingTitle && editableTitle == old(editableTitle)
    {
      isEditingTitle := true;
    }

    /** The input's change handler. */
    method Type(text: string)
      modifies this
      ensures editableTitle == text && isEditingTitle == old(isEditingTitle)
    {
      editableTitle := text;
    }

    /** The effect run when the displayed note's title changes. */
    method NoteTitleChanged(noteTitle: string)
      modifies this
      ensures editableTitle == noteTitle && isEditingTitle == old(isEditingTitle)
    {
      editableTitle := noteTitle;
    }

    /** handleTitleBlur: leaves editing mode; a committed edit is reported as
      the note with the trimmed title, otherwise the input reverts. */
    method Blur(note: NoteData) returns (update: Option<NoteData>)
      modifies this
      ensures !isEditingTitle
      ensures var c := CommitTitle(old(editableTitle), note.title);
        && (c.Some? ==> update == Some(note.(title := c.value)) && editableTitle == old(editableTitle))
        && (c.None? ==> update == None && editableTitle == note.title)
    {
      isEditingTitle := false;
      var trimmed := Trim(editableTitle);
      if trimmed != "" && editableTitle != note.title {
        update := Some(note.(title := trimmed));
      } else {
        editableTitle := note.title;
        update := None;
      }
    }

    /** handleTitleKeyDown: Enter commits as a blur does, Escape reverts and
      leaves editing mode without reporting, other keys do nothing. */
    method KeyDown(key: Key, note: NoteData) returns (update: Option<NoteData>)
      modifies this
      ensures key == Enter ==>
        var c := CommitTitle(old(editableTitle), note.title);
        && !isEditingTitle
        && (c.Some? ==> update == Some(note.(title := c.value)) && editableTitle == old(editableTitle))
        && (c.None? ==> update == None && editableTitle == note.title)
      ensures key == Escape ==> update == None && editableTitle == note.title && !isEditingTitle
      ensures key == OtherKey ==> update == None && editableTitle == old(editableTitle) && isEditingTitle == old(isEditingTitle)
    {
      match key
      case Enter =>
        update := Blur(note);
      case Escape =>
        editableTitle := note.title;
        isEditingTitle := false;
        update := None;
      case OtherKey =>
        update := None;
    }
  }

  // ---------------------------------------------------------------------
  // File names

  predicate IsAsciiAlnum(c: char) {
    ('a' <= c <= 'z') || ('A' <= c <= 'Z') || ('0' <= c <= '9')
  }

  predicate IsSafeChar(c: char) {
    ('a' <= c <= 'z') || ('0' <= c <= '9') || c == '_'
  }

  function Lower(c: char): (r: char)
    requires IsAsciiAlnum(c)
    ensures IsSafeChar(r) && r != '_'
  {
    if 'A' <= c <= 'Z' then (c as int - 'A' as int + 'a' as int) as char else c
  }

  /** The number of UTF-16 code units a character takes. */
  function Units(c: char): nat {
    if c as int > 0xFFFF then 2 else 1
  }

  /** A string's `length` in JavaScript: its UTF-16 code units. */
  function Utf16Length(s: string): nat {
    if s == [] then 0 else Units(s[0]) + Utf16Length(s[1..])
  }

  /** What one character becomes: an ASCII letter or digit is lowercased,
      any other code unit is replaced by an underscore. */
  function SafeUnits(c: char): string {
    if IsAsciiAlnum(c) then [Lower(c)] else seq(Units(c), _ => '_')
  }

  /** safeTitle: the title with every code unit outside `[A-Za-z0-9]`
      replaced by `_`, then lowercased. */
  function SafeTitle(title: string): (r: string)
    ensures |r| == Utf16Length(title)
    ensures forall i :: 0 <= i < |r| ==> IsSafeChar(r[i])
    ensures r == [] <==> title == []
  {
    if title == [] then [] else SafeUnits(title[0]) + SafeTitle(title[1..])
  }

  /** On a title of letters, digits and other characters of the Basic
      Multilingual Plane, the safe title lines up with it character by
      character. */
  lemma {:induction false} SafeTitlePointwise(title: string)
    requires forall i :: 0 <= i < |title| ==> title[i] as int <= 0xFFFF
    ensures |SafeTitle(title)| == |title|
    ensures forall i :: 0 <= i < |title| ==>
      SafeTitle(title)[i] == (if IsAsciiAlnum(title[i]) then Lower(title[i]) else '_')
  {
    if title != [] {
      SafeTitlePointwise(title[1..]);
      var r := SafeTitle(title);
      assert r == SafeUnits(title[0]) + SafeTitle(title[1..]);
      assert |SafeUnits(title[0])| == 1;
      forall i | 0 <= i < |title|
        ensures r[i] == (if IsAsciiAlnum(title[i]) then Lower(title[i]) else '_')
      {
        if i > 0 {
          assert r[i] == SafeTitle(title[1..])[i - 1];
          assert title[i] == title[1..][i - 1];
        }
      }
    }
  }

  /** The shape both download names share: a prefix, the safe title, and
      an extension, with a fallback word only where the safe title is empty,
      which is exactly for an empty title. */
  function DownloadName(prefix: string, fallback: string, ext: string, title: string): (r: string)
    ensures title != [] ==> r == prefix + SafeTitle(title) + ext
    ensures title == [] ==> r == prefix + fallback + ext
  {
    var safe := SafeTitle(title);
    prefix + (if safe != [] then safe else fallback) + ext
  }

  /** The audio download's file name. */
  function AudioFilename(title: string): (r: string)
    ensures title != [] ==> r == "recording_" + SafeTitle(title) + ".webm"
    ensures title == [] ==> r == "recording_audio.webm"
  {
    DownloadName("recording_", "audio", ".webm", title)
  }

  /** The PDF export's file name. */
  function PdfFilename(title: string): (r: string)
    ensures title != [] ==> r == "notes_" + SafeTitle(title) + ".pdf"
    ensures title == [] ==> r == "notes_generated.pdf"
  {
    DownloadName("notes_", "generated", ".pdf", title)
  }

  /** A title of white space or punctuation still names a file of its own,
      made of underscores, and never falls back. */
  lemma PunctuationTitleKeepsItsName()
    ensures AudioFilename("?!") == "recording___.webm"
    ensures PdfFilename(" ") == "notes__.pdf"
  {
    assert SafeTitle("?!") == "__" by {
      assert SafeTitle("!") == SafeUnits('!') + SafeTitle("");
    }
    assert SafeTitle(" ") == "_" by {
      assert SafeTitle(" ") == SafeUnits(' ') + SafeTitle("");
    }
  }

  // ---------------------------------------------------------------------
  // Toolbar

  /** What the PDF button does. */
  datatype PdfOutcome = RequestLogin | RequestUpgrade | Export(filename: string)

  /** handleDownloadPdf: a logged-out user is asked to log in, a free-plan
      user to upgrade; only a Pro user gets the document. */
  function DownloadPdf(isLoggedIn: bool, plan: Plan, title: string): (r: PdfOutcome)
    ensures !isLoggedIn ==> r == RequestLogin
    ensures isLoggedIn && plan.Free? ==> r == RequestUpgrade
    ensures r.Export? <==> isLoggedIn && plan.Pro?
    ensures r.Export? ==> r.filename == PdfFilename(title)
  {
    if !isLoggedIn then RequestLogin
    else if plan.Free? then RequestUpgrade
    else Export(PdfFilename(title))
  }

  /** handleDownloadAudio: the file name when there is audio, nothing otherwise. */
  function DownloadAudio(audioBlob: Option<Blob>, title: string): (r: Option<string>)
    ensures r.Some? <==> audioBlob.Some?
    ensures r.Some? ==> r.value == AudioFilename(title)
  {
    if audioBlob.None? then None else Some(AudioFilename(title))
  }

  /** The toolbar's controls as rendered. */
  datatype Toolbar = Toolbar(saveDisabled: bool, saveLabel: string, audioShown: bool, proBadge: bool)

  function RenderToolbar(isSaved: bool, audioBlob: Option<Blob>, plan: Plan): (t: Toolbar)
    ensures t.saveDisabled <==> isSaved
    ensures t.saveLabel == (if isSaved then "Saved" else "Save to History")
    ensures t.audioShown <==> audioBlob.Some?
    ensures t.proBadge <==> plan == Free
  {
    Toolbar(isSaved, if isSaved then "Saved" else "Save to History", audioBlob.Some?, plan == Free)
  }
}
