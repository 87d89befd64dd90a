/** The Colab converter: a copy of a local notebook in which the first
    configuration cell gives way to three fixed cells (a note on the Drive
    layout, the Drive setup and the imports), the `GRAFICOS_DIR.mkdir` call
    of later code cells becomes a comment, and the notebook's metadata gains
    a `colab` entry. */
module Colab {

  import opened Text
  import opened Notebooks

  /** A notebook cell: its `cell_type`, its source, and everything else it
      holds (metadata, outputs, execution count), which the converter keeps. */
  datatype NotebookCell = NotebookCell(cellType: String, source: Source, rest: String)

  /** A notebook: its cells and its metadata entries, each value written as
      JSON text. */
  datatype Notebook = Notebook(cells: seq<NotebookCell>, metadata: map<String, String>)

  const COLAB_METADATA: String := "{\"provenance\": [], \"toc_visible\": true}"

  /** The markdown cell that opens the replacement. */
  const HEADER_CELL: NotebookCell := NotebookCell("markdown", Lines([
      "## Configuração do Google Colab\n",
      "\n",
      "Este notebook foi adaptado para rodar no **Google Colab**.\n",
      "\n",
      "**Pré-requisito:** Coloque o arquivo Excel na pasta do Google Drive:\n",
      "```\n",
      "Google Drive / ABAR / data / Analise de Condições de Operação de Distrito.xlsx\n",
      "```\n",
      "\n",
      "> Se o arquivo estiver em outra pasta, altere `DRIVE_DATA_DIR` na célula abaixo."
    ]), "{\"metadata\": {}}")

  /** The code cell that mounts Drive and defines the data and chart paths. */
  const SETUP_LINES: seq<String> := [
      "# === CONFIGURAÇÃO GOOGLE COLAB ===\n",
      "# Monte o Google Drive\n",
      "from google.colab import drive\n",
      "drive.mount('/content/drive')\n",
      "\n",
      "from pathlib import Path\n",
      "import os\n",
      "\n",
      "# Pasta no Google Drive onde está o arquivo Excel\n",
      "# Ajuste se necessário:\n",
      "DRIVE_DATA_DIR = Path('/content/drive/MyDrive/ABAR/data')\n",
      "\n",
      "# Pasta para salvar gráficos (no Colab)\n",
      "GRAFICOS_DIR = Path('/content/graficos')\n",
      "GRAFICOS_DIR.mkdir(parents=True, exist_ok=True)\n",
      "\n",
      "EXCEL_DEFAULT = 'Analise de Condições de Operação de Distrito.xlsx'\n",
      "EXCEL_PATH = DRIVE_DATA_DIR / EXCEL_DEFAULT\n",
      "\n",
      "# Verificar se o arquivo existe\n",
      "if EXCEL_PATH.exists():\n",
      "    print(f'Arquivo encontrado: {EXCEL_PATH}')\n",
      "    print(f'Tamanho: {EXCEL_PATH.stat().st_size / 1024:.0f} KB')\n",
      "else:\n",
      "    print(f'ERRO: Arquivo não encontrado em {EXCEL_PATH}')\n",
      "    print(f'Conteúdo de {DRIVE_DATA_DIR}:')\n",
      "    if DRIVE_DATA_DIR.exists():\n",
      "        for f in DRIVE_DATA_DIR.iterdir():\n",
      "            print(f'  {f.name}')\n",
      "    else:\n",
      "        print(f'  Pasta não existe! Crie: {DRIVE_DATA_DIR}')\n"
    ]

  const SETUP_CELL: NotebookCell :=
    NotebookCell("code", Lines(SETUP_LINES), "{\"execution_count\": null, \"metadata\": {}, \"outputs\": []}")

  /** The code cell with the analysis imports and display settings. */
  const IMPORTS_CELL: NotebookCell := NotebookCell("code", Lines([
      "import pandas as pd\n",
      "import numpy as np\n",
      "import matplotlib.pyplot as plt\n",
      "import seaborn as sns\n",
      "import warnings\n",
      "\n",
      "# Configurações gerais\n",
      "warnings.filterwarnings('ignore')\n",
      "pd.set_option('display.max_columns', 20)\n",
      "pd.set_option('display.float_format', '{:,.2f}'.format)\n",
      "plt.rcParams['figure.figsize'] = (14, 6)\n",
      "plt.rcParams['font.size'] = 12\n",
      "\n",
      "print('Bibliotecas carregadas com sucesso!')\n"
    ]), "{\"execution_count\": null, \"metadata\": {}, \"outputs\": []}")

  const REPLACEMENT: seq<NotebookCell> := [HEADER_CELL, SETUP_CELL, IMPORTS_CELL]

  /** The texts whose presence marks the local configuration cell. */
  const CONFIG_INDICATORS: seq<String> :=
    ["from config import", "sys.path.insert", "PROJECT_ROOT", "EXCEL_DEFAULT", "from pathlib import Path"]

  /** The call the Colab setup already makes, and what replaces it. */
  const MKDIR_CALL: String := "GRAFICOS_DIR.mkdir(parents=True, exist_ok=True)"
  const MKDIR_COMMENT: String := "# GRAFICOS_DIR já criado no setup"

  /** How many of `indicators` occur in `text`. */
  function IndicatorCount(text: String, indicators: seq<String>): (n: nat)
    ensures n <= |indicators|
  {
    if indicators == [] then 0
    else (if Contains(text, indicators[0]) then 1 else 0) + IndicatorCount(text, indicators[1..])
  }

  /** `is_config_cell`. */
  predicate IsConfigCell(text: String) {
    IndicatorCount(text, CONFIG_INDICATORS) >= 2
  }

  /** Some indicator occurs exactly when the count is positive. */
  lemma {:induction false} IndicatorCountPositive(text: String, indicators: seq<String>)
    ensures IndicatorCount(text, indicators) >= 1 <==>
              exists i :: 0 <= i < |indicators| && Contains(text, indicators[i])
  {
    if indicators != [] {
      var tail := indicators[1..];
      IndicatorCountPositive(text, tail);
      if exists i :: 0 <= i < |tail| && Contains(text, tail[i]) {
        var i :| 0 <= i < |tail| && Contains(text, tail[i]);
        assert Contains(text, indicators[i + 1]);
      }
      if exists i :: 0 <= i < |indicators| && Contains(text, indicators[i]) {
        var i :| 0 <= i < |indicators| && Contains(text, indicators[i]);
        if i > 0 {
          assert Contains(text, tail[i - 1]);
        }
      }
    }
  }

  /** Two distinct indicators occur exactly when the count reaches two. */
  lemma {:induction false} IndicatorCountTwo(text: String, indicators: seq<String>)
    ensures IndicatorCount(text, indicators) >= 2 <==>
              exists i, j :: 0 <= i < j < |indicators| && Contains(text, indicators[i]) && Contains(text, indicators[j])
  {
    if indicators != [] {
      var tail := indicators[1..];
      IndicatorCountTwo(text, tail);
      IndicatorCountPositive(text, tail);
      if IndicatorCount(text, indicators) >= 2 {
        if Contains(text, indicators[0]) {
          var j :| 0 <= j < |tail| && Contains(text, tail[j]);
          assert Contains(text, indicators[j + 1]);
        } else {
          var i, j :| 0 <= i < j < |tail| && Contains(text, tail[i]) && Contains(text, tail[j]);
          assert Contains(text, indicators[i + 1]) && Contains(text, indicators[j + 1]);
        }
      }
      if exists i, j :: 0 <= i < j < |indicators| && Contains(text, indicators[i]) && Contains(text, indicators[j]) {
        var i, j :| 0 <= i < j < |indicators| && Contains(text, indicators[i]) && Contains(text, indicators[j]);
        assert Contains(text, tail[j - 1]);
        if i > 0 {
          assert Contains(text, tail[i - 1]);
        }
      }
    }
  }

  /** A cell is the configuration cell exactly when two different
      indicators occur in its text. */
  lemma ConfigCellIff(text: String)
    ensures IsConfigCell(text) <==>
              exists i, j :: 0 <= i < j < |CONFIG_INDICATORS| &&
                Contains(text, CONFIG_INDICATORS[i]) && Contains(text, CONFIG_INDICATORS[j])
  {
    IndicatorCountTwo(text, CONFIG_INDICATORS);
  }

  predicate IsCode(cell: NotebookCell) {
    cell.cellType == "code"
  }

  /** The cell the three fixed cells replace: a code cell whose text is a
      configuration cell's. */
  predicate IsConfigCodeCell(cell: NotebookCell) {
    IsCode(cell) && IsConfigCell(SourceText(cell.source))
  }

  /** What the loop does with every other cell: a code cell whose text
      holds the `mkdir` call gets that call commented out, its source kept
      as a list of lines or as one string as it was. */
  function ConvertCell(cell: NotebookCell): NotebookCell {
    if !IsCode(cell) then cell
    else
      var text := SourceText(cell.source);
      var rewritten := ReplaceAll(text, MKDIR_CALL, MKDIR_COMMENT);
      if rewritten == text then cell
      else if cell.source.Lines? then cell.(source := Lines(SplitLinesKeepEnds(rewritten)))
      else cell.(source := Whole(rewritten))
  }

  /** A converted cell keeps its type and everything but its source; a code
      cell reads back as its rewritten text, in the form it had; any other
      cell, and a code cell without the call, is kept whole. */
  lemma ConvertCellSpec(cell: NotebookCell)
    ensures ConvertCell(cell).cellType == cell.cellType
    ensures ConvertCell(cell).rest == cell.rest
    ensures ConvertCell(cell).source.Lines? == cell.source.Lines?
    ensures !IsCode(cell) ==> ConvertCell(cell) == cell
    ensures IsCode(cell) ==>
              SourceText(ConvertCell(cell).source) == ReplaceAll(SourceText(cell.source), MKDIR_CALL, MKDIR_COMMENT)
    ensures !Contains(SourceText(cell.source), MKDIR_CALL) ==> ConvertCell(cell) == cell
  {
    if !Contains(SourceText(cell.source), MKDIR_CALL) {
      ReplaceAllAbsent(SourceText(cell.source), MKDIR_CALL, MKDIR_COMMENT);
    }
  }

  /** Every cell converted on its own. */
  function ConvertEach(cells: seq<NotebookCell>): (r: seq<NotebookCell>)
    ensures |r| == |cells|
  {
    if cells == [] then [] else ConvertEach(cells[..|cells| - 1]) + [ConvertCell(cells[|cells| - 1])]
  }

  lemma {:induction false} ConvertEachAt(cells: seq<NotebookCell>)
    ensures forall i :: 0 <= i < |cells| ==> ConvertEach(cells)[i] == ConvertCell(cells[i])
  {
    if cells != [] {
      ConvertEachAt(cells[..|cells| - 1]);
    }
  }

  /** The new cell list and the `config_replaced` flag after the loop has
      seen `cells`, when `fixed` are the cells that replace the
      configuration cell (`REPLACEMENT` in the converter). */
  function Converted(cells: seq<NotebookCell>, fixed: seq<NotebookCell>): (seq<NotebookCell>, bool)
  {
    if cells == [] then ([], false)
    else
      var prev := Converted(cells[..|cells| - 1], fixed);
      var cell := cells[|cells| - 1];
      if !prev.1 && IsConfigCodeCell(cell) then (prev.0 + fixed, true)
      else (prev.0 + [ConvertCell(cell)], prev.1)
  }

  /** Without a configuration cell every cell is converted on its own and
      the flag stays down. */
  lemma {:induction false} ConvertedWithoutConfig(cells: seq<NotebookCell>, fixed: seq<NotebookCell>)
    requires forall i :: 0 <= i < |cells| ==> !IsConfigCodeCell(cells[i])
    ensures Converted(cells, fixed) == (ConvertEach(cells), false)
  {
    if cells != [] {
      ConvertedWithoutConfig(cells[..|cells| - 1], fixed);
    }
  }

  /** Only the first configuration cell is replaced, by the three fixed
      cells; the cells before and after it, later configuration cells
      included, are converted on their own and stay in order. */
  lemma {:induction false} ConvertedWithConfig(cells: seq<NotebookCell>, k: nat, fixed: seq<NotebookCell>)
    requires k < |cells| && IsConfigCodeCell(cells[k])
    requires forall i :: 0 <= i < k ==> !IsConfigCodeCell(cells[i])
    ensures Converted(cells, fixed) == (ConvertEach(cells[..k]) + fixed + ConvertEach(cells[k + 1..]), true)
    decreases |cells|
  {
    var front := cells[..|cells| - 1];
    if k == |cells| - 1 {
      assert forall i :: 0 <= i < |front| ==> front[i] == cells[i];
      ConvertedWithoutConfig(front, fixed);
      ConvertedAtConfig(cells, fixed);
    } else {
      assert front[k] == cells[k];
      assert forall i :: 0 <= i < k ==> front[i] == cells[i];
      ConvertedWithConfig(front, k, fixed);
      ConvertedPastConfig(cells, k, fixed);
    }
  }

  /** The replaced cell is the last one seen: the fixed cells follow the
      cells converted before it. */
  lemma ConvertedAtConfig(cells: seq<NotebookCell>, fixed: seq<NotebookCell>)
    requires |cells| > 0 && IsConfigCodeCell(cells[|cells| - 1])
    requires Converted(cells[..|cells| - 1], fixed) == (ConvertEach(cells[..|cells| - 1]), false)
    ensures Converted(cells, fixed) == (ConvertEach(cells[..|cells| - 1]) + fixed + ConvertEach(cells[|cells|..]), true)
  {
    assert cells[|cells|..] == [];
    var head := ConvertEach(cells[..|cells| - 1]) + fixed;
    assert head + ConvertEach(cells[|cells|..]) == head;
  }

  /** One step past the replaced cell: the last cell is converted on its own
      and joins the cells after the configuration cell. */
  lemma ConvertedPastConfig(cells: seq<NotebookCell>, k: nat, fixed: seq<NotebookCell>)
    requires k < |cells| - 1
    requires Converted(cells[..|cells| - 1], fixed) ==
               (ConvertEach(cells[..|cells| - 1][..k]) + fixed + ConvertEach(cells[..|cells| - 1][k + 1..]), true)
    ensures Converted(cells, fixed) == (ConvertEach(cells[..k]) + fixed + ConvertEach(cells[k + 1..]), true)
  {
    var front := cells[..|cells| - 1];
    var last := cells[|cells| - 1];
    PrefixOfFront(cells, k);
    var after := front[k + 1..];
    var head := ConvertEach(cells[..k]) + fixed;
    assert Converted(cells, fixed) == (head + ConvertEach(after) + [ConvertCell(last)], true);
    SuffixSnoc(cells, k + 1);
    ConvertEachSnoc(after, last);
    SnocAssoc(head, ConvertEach(after), ConvertCell(last));
  }

  lemma ConvertEachSnoc(cells: seq<NotebookCell>, cell: NotebookCell)
    ensures ConvertEach(cells + [cell]) == ConvertEach(cells) + [ConvertCell(cell)]
  {
    FrontOfSnoc(cells, cell);
  }

  lemma FrontOfSnoc<T>(s: seq<T>, x: T)
    ensures (s + [x])[..|s|] == s
  {
  }

  lemma PrefixOfFront<T>(s: seq<T>, k: nat)
    requires k < |s|
    ensures s[..|s| - 1][..k] == s[..k]
  {
  }

  lemma SuffixSnoc<T>(s: seq<T>, k: nat)
    requires k < |s|
    ensures s[k..] == s[..|s| - 1][k..] + [s[|s| - 1]]
  {
  }

  lemma SnocAssoc<T>(p: seq<T>, q: seq<T>, x: T)
    ensures p + q + [x] == p + (q + [x])
  {
  }

  /** The flag is raised exactly when some code cell is a configuration
      cell, and the replacement adds two cells to the count. */
  lemma ConvertedFlagAndLength(cells: seq<NotebookCell>, fixed: seq<NotebookCell>)
    ensures Converted(cells, fixed).1 <==> exists i :: 0 <= i < |cells| && IsConfigCodeCell(cells[i])
    ensures |Converted(cells, fixed).0| == |cells| + (if Converted(cells, fixed).1 then |fixed| - 1 else 0)
  {
    if exists i :: 0 <= i < |cells| && IsConfigCodeCell(cells[i]) {
      var k := FirstConfigCell(cells, 0);
      ConvertedWithConfig(cells, k, fixed);
    } else {
      ConvertedWithoutConfig(cells, fixed);
    }
  }

  /** The index of the first configuration cell at or after `from`. */
  function FirstConfigCell(cells: seq<NotebookCell>, from: nat): (k: nat)
    requires exists i :: from <= i < |cells| && IsConfigCodeCell(cells[i])
    ensures from <= k < |cells| && IsConfigCodeCell(cells[k])
    ensures forall i :: from <= i < k ==> !IsConfigCodeCell(cells[i])
    decreases |cells| - from
  {
    if IsConfigCodeCell(cells[from]) then from else FirstConfigCell(cells, from + 1)
  }

  /** A text found in one of the pieces is found in their concatenation. */
  lemma {:induction false} ContainsInConcat(parts: seq<String>, k: nat, p: String)
    requires k < |parts| && Contains(parts[k], p)
    ensures Contains(Concat(parts), p)
  {
    ContainsConcat(parts[0], Concat(parts[1..]), p);
    if k > 0 {
      ContainsInConcat(parts[1..], k - 1, p);
    }
  }

  /** A code cell with one source line naming `EXCEL_DEFAULT` and another
      importing `Path` is a configuration cell. */
  lemma ConfigByLines(cell: NotebookCell, a: nat, b: nat)
    requires IsCode(cell) && cell.source.Lines?
    requires a < |cell.source.lines| && Contains(cell.source.lines[a], CONFIG_INDICATORS[3])
    requires b < |cell.source.lines| && Contains(cell.source.lines[b], CONFIG_INDICATORS[4])
    ensures IsConfigCodeCell(cell)
  {
    var lines := cell.source.lines;
    ContainsInConcat(lines, a, CONFIG_INDICATORS[3]);
    ContainsInConcat(lines, b, CONFIG_INDICATORS[4]);
    ConfigCellIff(Concat(lines));
  }

  /** The fixed setup cell both uses `EXCEL_DEFAULT` and imports `Path`, so
      it is itself a configuration cell. */
  lemma SetupCellIsConfig()
    ensures IsConfigCodeCell(SETUP_CELL)
    ensures REPLACEMENT[1] == SETUP_CELL
  {
    SetupImportsPath();
    SetupNamesExcel();
    ConfigByLines(SETUP_CELL, 17, 5);
  }

  lemma SetupImportsPath()
    ensures 5 < |SETUP_LINES| && Contains(SETUP_LINES[5], CONFIG_INDICATORS[4])
  {
    assert OccursAt(SETUP_LINES[5], CONFIG_INDICATORS[4], 0);
    ContainsIff(SETUP_LINES[5], CONFIG_INDICATORS[4]);
  }

  /** `EXCEL_PATH = DRIVE_DATA_DIR / EXCEL_DEFAULT` ends with the name. */
  lemma SetupNamesExcel()
    ensures 17 < |SETUP_LINES| && Contains(SETUP_LINES[17], CONFIG_INDICATORS[3])
  {
    assert OccursAt(SETUP_LINES[17], CONFIG_INDICATORS[3], 30);
    ContainsIff(SETUP_LINES[17], CONFIG_INDICATORS[3]);
  }

  /** When the fixed cells hold a configuration cell, converting the output
      of a conversion that replaced one replaces one again. */
  lemma ReconvertedFlag(cells: seq<NotebookCell>, fixed: seq<NotebookCell>, j: nat)
    requires j < |fixed| && IsConfigCodeCell(fixed[j])
    requires Converted(cells, fixed).1
    ensures Converted(Converted(cells, fixed).0, fixed).1
  {
    ConvertedFlagAndLength(cells, fixed);
    var k := FirstConfigCell(cells, 0);
    ConvertedWithConfig(cells, k, fixed);
    var front, back := ConvertEach(cells[..k]), ConvertEach(cells[k + 1..]);
    var out := Converted(cells, fixed).0;
    assert out == front + fixed + back;
    IndexInMiddle(front, fixed, back, j);
    assert IsConfigCodeCell(out[|front| + j]);
    ConvertedFlagAndLength(out, fixed);
  }

  lemma IndexInMiddle<T>(front: seq<T>, middle: seq<T>, back: seq<T>, j: nat)
    requires j < |middle|
    ensures |front| + j < |front + middle + back|
    ensures (front + middle + back)[|front| + j] == middle[j]
  {
  }

  /** Converting a converted notebook again replaces the Colab setup cell,
      since it reads as the configuration cell. */
  lemma ConvertedTwice(cells: seq<NotebookCell>)
    requires Converted(cells, REPLACEMENT).1
    ensures Converted(Converted(cells, REPLACEMENT).0, REPLACEMENT).1
  {
    SetupCellIsConfig();
    ReconvertedFlag(cells, REPLACEMENT, 1);
  }

  /** `convert_notebook` on the parsed notebook: the copy it writes out and
      whether a configuration cell was replaced. The input is a value and
      stays as it was. */
  method ConvertNotebook(nb: Notebook) returns (out: Notebook, configReplaced: bool)
    ensures (out.cells, configReplaced) == Converted(nb.cells, REPLACEMENT)
    ensures out.metadata == nb.metadata["colab" := COLAB_METADATA]
  {
    var newCells: seq<NotebookCell> := [];
    configReplaced := false;
    var i := 0;
    while i < |nb.cells|
      invariant 0 <= i <= |nb.cells|
      invariant (newCells, configReplaced) == Converted(nb.cells[..i], REPLACEMENT)
    {
      var cell := nb.cells[i];
      assert nb.cells[..i + 1][..i] == nb.cells[..i];
      var src := SourceText(cell.source);
      if !configReplaced && cell.cellType == "code" && IsConfigCell(src) {
        newCells := newCells + [HEADER_CELL, SETUP_CELL, IMPORTS_CELL];
        configReplaced := true;
      } else {
        if cell.cellType == "code" {
          var srcNew := ReplaceAll(src, MKDIR_CALL, MKDIR_COMMENT);
          if srcNew != src {
            if cell.source.Lines? {
              cell := cell.(source := Lines(SplitLinesKeepEnds(srcNew)));
            } else {
              cell := cell.(source := Whole(srcNew));
            }
          }
        }
        newCells := newCells + [cell];
      }
      i := i + 1;
    }
    assert nb.cells[..i] == nb.cells;
    out := Notebook(newCells, nb.metadata["colab" := COLAB_METADATA]);
  }
}
