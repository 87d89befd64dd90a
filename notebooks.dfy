/** The cell-source helpers of the notebook fixer: reading a cell's source
    as one string, writing it back as a list of lines, and the guarded
    rewrites that add a `graficos` directory, save each chart before it is
    shown, and replace characters or phrases. */
module Notebooks {

  import opened Wrappers
  import opened Text

  /** A cell's `source`: the list of line strings notebooks store, or a
      single string. A cell without a source reads as an empty list. */
  datatype Source = Lines(lines: seq<String>) | Whole(text: String)

  /** `get_source`: the source as one string. */
  function SourceText(src: Source): String {
    match src
    case Lines(lines) => Concat(lines)
    case Whole(text) => text
  }

  /** The lines `set_source` stores: the text's newline-separated pieces,
      each but the last given back its newline. */
  function WithNewlines(parts: seq<String>): seq<String> {
    if |parts| <= 1 then parts else [parts[0] + "\n"] + WithNewlines(parts[1..])
  }

  function SourceLines(text: String): seq<String> {
    WithNewlines(Split(text, '\n'))
  }

  /** The line `i` of `WithNewlines(parts)`. */
  function LineWithNewline(parts: seq<String>, i: nat): String
    requires i < |parts|
  {
    if i < |parts| - 1 then parts[i] + "\n" else parts[i]
  }

  lemma {:induction false} WithNewlinesAt(parts: seq<String>)
    ensures |WithNewlines(parts)| == |parts|
    ensures forall i :: 0 <= i < |parts| ==> WithNewlines(parts)[i] == LineWithNewline(parts, i)
  {
    if |parts| > 1 {
      WithNewlinesAt(parts[1..]);
    }
  }

  lemma {:induction false} WithNewlinesConcat(parts: seq<String>)
    requires parts != []
    ensures Concat(WithNewlines(parts)) == Join(parts, "\n")
  {
    if |parts| > 1 {
      WithNewlinesConcat(parts[1..]);
      var rest := WithNewlines(parts[1..]);
      assert ([parts[0] + "\n"] + rest)[1..] == rest;
      AppendAssoc(parts[0], "\n", Concat(rest));
    }
  }

  /** The round trip: what `set_source` stores, `get_source` reads back. */
  lemma SourceRoundTrip(text: String)
    ensures SourceText(Lines(SourceLines(text))) == text
  {
    WithNewlinesConcat(Split(text, '\n'));
    SplitJoinBack(text, '\n');
  }

  /** `set_source` stores one line per newline and one more; every line but
      the last ends in its only newline, and the last has none. */
  lemma SourceLinesShape(text: String)
    ensures |SourceLines(text)| == CountChar(text, '\n') + 1
    ensures forall i :: 0 <= i < |SourceLines(text)| - 1 ==>
              EndsWith(SourceLines(text)[i], "\n") && '\n' !in SourceLines(text)[i][..|SourceLines(text)[i]| - 1]
    ensures '\n' !in SourceLines(text)[|SourceLines(text)| - 1]
  {
    var parts := Split(text, '\n');
    SplitCount(text, '\n');
    SplitPiecesFree(text, '\n');
    WithNewlinesAt(parts);
    forall i | 0 <= i < |parts| - 1
      ensures EndsWith(SourceLines(text)[i], "\n") && '\n' !in SourceLines(text)[i][..|SourceLines(text)[i]| - 1]
    {
      var line := SourceLines(text)[i];
      assert line == parts[i] + "\n";
      assert line[..|line| - 1] == parts[i];
    }
  }

  /** The block `add_os_makedirs` appends. */
  const MAKEDIRS_BLOCK: String := "\n" + "import os" + "\n\nos.makedirs('graficos', exist_ok=True)\n"

  /** The source after `add_os_makedirs`: trailing whitespace dropped, then
      the block. */
  function WithMakedirs(src: String): String {
    RStrip(src) + MAKEDIRS_BLOCK
  }

  /** After the block is added the source imports `os`, so the next
      `add_os_makedirs` leaves the cell alone. */
  lemma MakedirsImportsOs(src: String)
    ensures Contains(WithMakedirs(src), "import os")
  {
    assert MAKEDIRS_BLOCK[1..10] == "import os";
    assert OccursAt(MAKEDIRS_BLOCK, "import os", 1);
    ContainsIff(MAKEDIRS_BLOCK, "import os");
    ContainsConcat(RStrip(src), MAKEDIRS_BLOCK, "import os");
  }

  /** The `savefig` call for a chart file. */
  function SavefigLine(pngName: String): String {
    "plt.savefig('graficos/" + pngName + "', dpi=150, bbox_inches='tight')"
  }

  /** The source after `add_savefig` inserts the call. */
  function WithSavefig(src: String, pngName: String): String {
    ReplaceFirst(src, "plt.show()", SavefigLine(pngName) + "\nplt.show()")
  }

  /** The call goes on its own line right before the first `plt.show()`
      and nowhere else; without a `plt.show()` the source is unchanged. */
  lemma SavefigBeforeFirstShow(src: String, pngName: String)
    ensures IndexOf(src, "plt.show()").None? ==> WithSavefig(src, pngName) == src
    ensures IndexOf(src, "plt.show()").Some? ==>
              var i := IndexOf(src, "plt.show()").value;
              var r := WithSavefig(src, pngName);
              var inserted := SavefigLine(pngName) + "\n";
              OccursAt(src, "plt.show()", i) &&
              (forall j :: 0 <= j < i ==> !OccursAt(src, "plt.show()", j)) &&
              r == src[..i] + inserted + src[i..]
  {
    if IndexOf(src, "plt.show()").Some? {
      var i := IndexOf(src, "plt.show()").value;
      var line := SavefigLine(pngName);
      assert src[i..] == "plt.show()" + src[i + 10..];
      calc {
        WithSavefig(src, pngName);
        src[..i] + (line + "\nplt.show()") + src[i + 10..];
        { assert line + "\nplt.show()" == (line + "\n") + "plt.show()"; }
        src[..i] + ((line + "\n") + "plt.show()") + src[i + 10..];
        { AppendAssoc(src[..i] + (line + "\n"), "plt.show()", src[i + 10..]); }
        src[..i] + (line + "\n") + src[i..];
      }
    }
  }

  /** Once inserted, the call is found, so the next `add_savefig` for the
      same chart leaves the cell alone. */
  lemma SavefigPresentAfter(src: String, pngName: String)
    requires Contains(src, "plt.show()")
    ensures Contains(WithSavefig(src, pngName), SavefigLine(pngName))
  {
    SavefigBeforeFirstShow(src, pngName);
    var i := IndexOf(src, "plt.show()").value;
    var r := WithSavefig(src, pngName);
    var line := SavefigLine(pngName);
    assert r == src[..i] + (line + ("\n" + src[i..]));
    assert r[i..i + |line|] == line;
    assert OccursAt(r, line, i);
    ContainsIff(r, line);
  }

  /** `fix_approx_char`'s rewrite: every `≈` becomes `~`. */
  function WithoutApprox(src: String): String {
    ReplaceAll(src, "≈", "~")
  }

  /** No `≈` is left, each one became `~` in place, and every other
      character is kept. */
  lemma ApproxReplaced(src: String)
    ensures '≈' !in WithoutApprox(src)
    ensures |WithoutApprox(src)| == |src|
    ensures forall i :: 0 <= i < |src| ==> WithoutApprox(src)[i] == if src[i] == '≈' then '~' else src[i]
  {
    ReplaceCharRemoves(src, '≈', "~");
    ReplaceCharMap(src, '≈', '~');
  }

  /** Replacing a character by text without it leaves none of it, so a
      second `fix_text` for that character reports no change. */
  lemma FixTextSettles(src: String, c: char, replacement: String)
    requires c !in replacement
    ensures !Contains(ReplaceAll(src, [c], replacement), [c])
  {
    ReplaceCharRemoves(src, c, replacement);
    ContainsChar(ReplaceAll(src, [c], replacement), c);
  }

  /** A notebook cell whose source the fixer reads and rewrites in place. */
  class Cell {
    var source: Source

    constructor(source: Source)
      ensures this.source == source
    {
      this.source := source;
    }

    /** `get_source`. */
    function GetSource(): String
      reads this
    {
      SourceText(source)
    }

    /** `set_source`: the text is stored as its list of lines. */
    method SetSource(text: String)
      modifies this
      ensures source == Lines(SourceLines(text))
      ensures GetSource() == text
    {
      var lines := Split(text, '\n');
      var result: seq<String> := [];
      var i := 0;
      while i < |lines|
        invariant 0 <= i <= |lines|
        invariant |result| == i
        invariant forall j :: 0 <= j < i ==> result[j] == LineWithNewline(lines, j)
      {
        if i < |lines| - 1 {
          result := result + [lines[i] + "\n"];
        } else {
          result := result + [lines[i]];
        }
        i := i + 1;
      }
      WithNewlinesAt(lines);
      assert result == WithNewlines(lines);
      source := Lines(result);
      SourceRoundTrip(text);
    }

    /** `add_os_makedirs`: adds the import and the `makedirs` call unless
        the source already imports `os`. */
    method AddOsMakedirs() returns (changed: bool)
      modifies this
      ensures changed <==> !Contains(old(GetSource()), "import os")
      ensures changed ==> source == Lines(SourceLines(WithMakedirs(old(GetSource()))))
      ensures !changed ==> source == old(source)
    {
      var src := GetSource();
      if !Contains(src, "import os") {
        src := RStrip(src) + MAKEDIRS_BLOCK;
        SetSource(src);
        return true;
      }
      return false;
    }

    /** `add_savefig`: unless the call is already there, it is put before
        the first `plt.show()` and the source is written back, even when
        there is no `plt.show()`. */
    method AddSavefig(pngName: String) returns (changed: bool)
      modifies this
      ensures changed <==> !Contains(old(GetSource()), SavefigLine(pngName))
      ensures changed ==> source == Lines(SourceLines(WithSavefig(old(GetSource()), pngName)))
      ensures !changed ==> source == old(source)
    {
      var src := GetSource();
      var savefigLine := SavefigLine(pngName);
      if Contains(src, savefigLine) {
        return false;
      }
      src := ReplaceFirst(src, "plt.show()", savefigLine + "\nplt.show()");
      SetSource(src);
      return true;
    }

    /** `fix_approx_char`. */
    method FixApproxChar() returns (changed: bool)
      modifies this
      ensures changed <==> '≈' in old(GetSource())
      ensures changed ==> source == Lines(SourceLines(WithoutApprox(old(GetSource()))))
      ensures !changed ==> source == old(source)
    {
      var src := GetSource();
      ContainsChar(src, '≈');
      if Contains(src, "≈") {
        src := ReplaceAll(src, "≈", "~");
        SetSource(src);
        return true;
      }
      return false;
    }

    /** `fix_text`: every occurrence of `old` is replaced when there is one. */
    method FixText(oldText: String, newText: String) returns (changed: bool)
      modifies this
      ensures changed <==> Contains(old(GetSource()), oldText)
      ensures changed ==> source == Lines(SourceLines(ReplaceAll(old(GetSource()), oldText, newText)))
      ensures !changed ==> source == old(source)
    {
      var src := GetSource();
      if Contains(src, oldText) {
        src := ReplaceAll(src, oldText, newText);
        SetSource(src);
        return true;
      }
      return false;
    }
  }
}
