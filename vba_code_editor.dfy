/**
 * The code preview's actions: copying the current project's macro, with a
 * "copied" flag that a 2000 ms timer resets, and downloading it as a `.bas`
 * file whose name is derived from the project title.
 */
module VbaCodeEditor {
  import opened Types
  import Text

  const DownloadSuffix := "_vba_code.bas"
  const CopiedResetMillis: nat := 2000

  /**
   * `s.replace(/\s+/g, '_')`: every maximal run of whitespace becomes one
   * underscore. Read left to right, a whitespace character emits the
   * underscore when it is the last of its run and nothing otherwise.
   */
  function CollapseWhitespace(s: string): string
  {
    if s == [] then []
    else
      var head := if !Text.IsWs(s[0]) then [s[0]] else if |s| > 1 && Text.IsWs(s[1]) then [] else "_";
      head + CollapseWhitespace(s[1..])
  }

  /** The result holds no whitespace at all. */
  lemma {:induction false} CollapseLeavesNoWs(s: string)
    ensures forall i :: 0 <= i < |CollapseWhitespace(s)| ==> !Text.IsWs(CollapseWhitespace(s)[i])
  {
    if s != [] {
      CollapseLeavesNoWs(s[1..]);
    }
  }

  /** Text without whitespace passes through unchanged. */
  lemma {:induction false} CollapseKeepsText(s: string)
    requires forall i :: 0 <= i < |s| ==> !Text.IsWs(s[i])
    ensures CollapseWhitespace(s) == s
  {
    if s != [] {
      CollapseKeepsText(s[1..]);
    }
  }

  /** Text that ends in a non-blank character (or is empty) is collapsed independently of what follows it. */
  lemma {:induction false} CollapseAppend(a: string, c: string)
    requires a == [] || !Text.IsWs(a[|a| - 1])
    ensures CollapseWhitespace(a + c) == CollapseWhitespace(a) + CollapseWhitespace(c)
  {
    if a == [] {
      assert a + c == c;
    } else {
      var t := a[1..];
      assert (a + c)[1..] == t + c;
      if |a| > 1 {
        assert (a + c)[1] == a[1];
        assert t[|t| - 1] == a[|a| - 1];
      }
      CollapseAppend(t, c);
    }
  }

  /** A non-empty blank run in front of text that starts with a non-blank character (or of nothing) becomes one underscore. */
  lemma {:induction false} CollapseBlankPrefix(w: string, b: string)
    requires w != [] && Text.IsBlank(w)
    requires b == [] || !Text.IsWs(b[0])
    ensures CollapseWhitespace(w + b) == "_" + CollapseWhitespace(b)
  {
    assert (w + b)[1..] == w[1..] + b;
    if |w| > 1 {
      assert (w + b)[1] == w[1];
      CollapseBlankPrefix(w[1..], b);
    } else {
      assert w[1..] + b == b;
    }
  }

  /**
   * One maximal whitespace run (`w`, preceded by nothing or a non-blank
   * character and followed by nothing or a non-blank character) becomes
   * exactly one underscore, and the text on either side is treated on its own.
   */
  lemma CollapseRun(a: string, w: string, b: string)
    requires a == [] || !Text.IsWs(a[|a| - 1])
    requires w != [] && Text.IsBlank(w)
    requires b == [] || !Text.IsWs(b[0])
    ensures CollapseWhitespace(a + w + b) == CollapseWhitespace(a) + "_" + CollapseWhitespace(b)
  {
    var x, y := CollapseWhitespace(a), CollapseWhitespace(b);
    var wb := w + b;
    assert CollapseWhitespace(a + wb) == x + CollapseWhitespace(wb) by {
      CollapseAppend(a, wb);
    }
    assert CollapseWhitespace(wb) == "_" + y by {
      CollapseBlankPrefix(w, b);
    }
    assert a + w + b == a + wb;
    assert x + ("_" + y) == x + "_" + y;
  }

  /**
   * The download's file name: the title with each whitespace run replaced by
   * one underscore, followed by `_vba_code.bas`.
   */
  function DownloadName(title: string): (name: string)
    ensures name == CollapseWhitespace(title) + DownloadSuffix
    ensures |name| >= |DownloadSuffix| && name[|name| - |DownloadSuffix|..] == DownloadSuffix
    ensures forall i :: 0 <= i < |name| ==> !Text.IsWs(name[i])
  {
    var stem := CollapseWhitespace(title);
    CollapseLeavesNoWs(title);
    assert (stem + DownloadSuffix)[|stem|..] == DownloadSuffix;
    stem + DownloadSuffix
  }

  /** Both buttons are disabled exactly when the current project has no code. */
  predicate ButtonsDisabled(current: Option<Project>)
  {
    !HasCode(current)
  }

  datatype Download = Download(fileName: string, content: string)

  class Editor {
    var copied: bool
    /** Reset timers scheduled by copies and not yet fired. */
    var copiedResetsPending: nat
    /** Texts handed to `navigator.clipboard.writeText`, in order. */
    var clipboardWrites: seq<string>
    /** Files offered for download, in order. */
    var downloads: seq<Download>

    constructor ()
      ensures !copied && copiedResetsPending == 0 && clipboardWrites == [] && downloads == []
    {
      copied := false;
      copiedResetsPending := 0;
      clipboardWrites := [];
      downloads := [];
    }

    /**
     * `copyToClipboard`: with code, the code is written to the clipboard, the
     * flag is set and a reset is scheduled; without code (when the button is
     * disabled) nothing happens.
     */
    method CopyToClipboard(current: Option<Project>)
      modifies this`copied, this`copiedResetsPending, this`clipboardWrites
      ensures ButtonsDisabled(current) ==>
        copied == old(copied) && copiedResetsPending == old(copiedResetsPending) && clipboardWrites == old(clipboardWrites)
      ensures !ButtonsDisabled(current) ==>
        && copied && copiedResetsPending == old(copiedResetsPending) + 1
        && clipboardWrites == old(clipboardWrites) + [current.value.vbaCode.value]
    {
      if HasCode(current) {
        clipboardWrites := clipboardWrites + [current.value.vbaCode.value];
        copied := true;
        copiedResetsPending := copiedResetsPending + 1;
      }
    }

    /** A 2000 ms reset timer fires: the flag is cleared. */
    method CopiedResetFires()
      requires copiedResetsPending > 0
      modifies this`copied, this`copiedResetsPending
      ensures !copied && copiedResetsPending == old(copiedResetsPending) - 1
    {
      copied := false;
      copiedResetsPending := copiedResetsPending - 1;
    }

    /**
     * `downloadAsVba`: with code, one file is offered whose content is
     * exactly the project's code and whose name follows `DownloadName`;
     * without code nothing happens.
     */
    method DownloadAsVba(current: Option<Project>)
      modifies this`downloads
      ensures ButtonsDisabled(current) ==> downloads == old(downloads)
      ensures !ButtonsDisabled(current) ==>
        downloads == old(downloads) + [Download(DownloadName(current.value.title), current.value.vbaCode.value)]
    {
      if HasCode(current) {
        downloads := downloads + [Download(DownloadName(current.value.title), current.value.vbaCode.value)];
      }
    }
  }
}
