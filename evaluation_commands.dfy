/** The command builders of the R session: each one turns its arguments
    into one R command and hands it to the session, either to be evaluated
    (with a result kind) or as a response to a pending prompt. The model is
    the request each builder produces; the asynchronous call that carries it
    is not modelled. */
module EvaluationCommands {
  import opened IntegerText
  import opened PathText
  import Split

  /** The result kind of an evaluation: the default one, or a result that
      the host decodes as JSON. */
  datatype EvaluationKind = Normal | Json

  /** What a builder hands to the session: `EvaluateAsync(text, kind)` on an
      evaluation, or `RespondAsync(text)` on an interaction. */
  datatype Request = Evaluate(text: string, kind: EvaluationKind) | Respond(text: string)

  predicate EndsWith(s: string, c: char) {
    |s| > 0 && s[|s| - 1] == c
  }

  // The five commands below are sent by `EvaluateNonReentrantAsync`: evaluated
  // with the default kind, their interpolated integers written with the
  // invariant culture, which is `Decimal`.

  function OptionsSetWidth(width: int32): (r: Request)
    ensures r.Evaluate? && r.kind == Normal
    ensures EndsWith(r.text, '\n')
  {
    Evaluate("options(width=as.integer(" + Decimal(width as int) + "))\n", Normal)
  }

  function SetWorkingDirectory(path: string): (r: Request)
    ensures r.Evaluate? && r.kind == Normal
    ensures EndsWith(r.text, '\n')
    ensures '\\' !in r.text
  {
    Evaluate("setwd('" + Normalize(path) + "')\n", Normal)
  }

  function SetDefaultWorkingDirectory(): (r: Request)
    ensures r.Evaluate? && r.kind == Normal
    ensures EndsWith(r.text, '\n')
  {
    Evaluate("setwd('~')\n", Normal)
  }

  function LoadWorkspace(path: string): (r: Request)
    ensures r.Evaluate? && r.kind == Normal
    ensures EndsWith(r.text, '\n')
    ensures '\\' !in r.text
  {
    Evaluate("load('" + Normalize(path) + "', .GlobalEnv)\n", Normal)
  }

  function SaveWorkspace(path: string): (r: Request)
    ensures r.Evaluate? && r.kind == Normal
    ensures EndsWith(r.text, '\n')
    ensures '\\' !in r.text
  {
    Evaluate("save.image(file='" + Normalize(path) + "')\n", Normal)
  }

  /** Defines the R helpers the other plot commands call and makes the
      IDE's graphics device the default one. */
  const GraphicsDeviceScript: string := @"
.rtvs.vsgdresize <- function(width, height) {
   invisible(.External('Microsoft.R.Host::External.ide_graphicsdevice_resize', width, height))
}
.rtvs.vsgd <- function() {
   invisible(.External('Microsoft.R.Host::External.ide_graphicsdevice_new'))
}
.rtvs.vsgdexportimage <- function(filename, device, width, height) {
    dev.copy(device=device,filename=filename,width=width,height=height)
    dev.off()
}
.rtvs.vsgdexportpdf <- function(filename, width, height, paper) {
    dev.copy(device=pdf,file=filename,width=width,height=height,paper=paper)
    dev.off()
}
.rtvs.vsgdnextplot <- function() {
   invisible(.External('Microsoft.R.Host::External.ide_graphicsdevice_next_plot'))
}
.rtvs.vsgdpreviousplot <- function() {
   invisible(.External('Microsoft.R.Host::External.ide_graphicsdevice_previous_plot'))
}
.rtvs.vsgdhistoryinfo <- function() {
   .External('Microsoft.R.Host::External.ide_graphicsdevice_history_info')
}
xaml <- function(filename, width, height) {
   invisible(.External('Microsoft.R.Host::External.xaml_graphicsdevice_new', filename, width, height))
}
options(device='.rtvs.vsgd')
"

  function SetVsGraphicsDevice(): (r: Request)
    ensures r.Evaluate? && r.kind == Normal
    ensures EndsWith(r.text, '\n')
  {
    Evaluate(GraphicsDeviceScript, Normal)
  }

  function ResizePlot(width: int32, height: int32): (r: Request)
    ensures r.Respond?
    ensures EndsWith(r.text, '\n')
  {
    Respond(".rtvs.vsgdresize(" + Decimal(width as int) + ", " + Decimal(height as int) + ")\n")
  }

  function NextPlot(): (r: Request)
    ensures r.Respond?
    ensures EndsWith(r.text, '\n')
  {
    Respond(".rtvs.vsgdnextplot()\n")
  }

  function PreviousPlot(): (r: Request)
    ensures r.Respond?
    ensures EndsWith(r.text, '\n')
  {
    Respond(".rtvs.vsgdpreviousplot()\n")
  }

  function PlotHistoryInfo(): (r: Request)
    ensures r.Evaluate? && r.kind == Json
    ensures EndsWith(r.text, ')')
  {
    Evaluate("rtvs:::toJSON(.rtvs.vsgdhistoryinfo())", Json)
  }

  /** The device name is inserted unquoted, as an R expression. */
  function ExportToBitmap(deviceName: string, outputFilePath: string, widthInPixels: int32, heightInPixels: int32): (r: Request)
    ensures r.Evaluate? && r.kind == Normal
    ensures EndsWith(r.text, ')')
  {
    Evaluate(".rtvs.vsgdexportimage('" + Normalize(outputFilePath) + "', " + deviceName + ", "
             + Decimal(widthInPixels as int) + ", " + Decimal(heightInPixels as int) + ")", Normal)
  }

  /** The two sizes are the already formatted text of the `double` arguments. */
  function ExportToMetafile(outputFilePath: string, widthInInches: string, heightInInches: string): (r: Request)
    ensures r.Evaluate? && r.kind == Normal
    ensures EndsWith(r.text, ')')
  {
    Evaluate(".rtvs.vsgdexportimage('" + Normalize(outputFilePath) + "', win.metafile, "
             + widthInInches + ", " + heightInInches + ")", Normal)
  }

  /** The two sizes are the already formatted text of the `double` arguments. */
  function ExportToPdf(outputFilePath: string, widthInInches: string, heightInInches: string, paper: string): (r: Request)
    ensures r.Evaluate? && r.kind == Normal
    ensures EndsWith(r.text, ')')
  {
    Evaluate(".rtvs.vsgdexportpdf('" + Normalize(outputFilePath) + "', "
             + widthInInches + ", " + heightInInches + ", '" + paper + "')", Normal)
  }

  /** Sets the CRAN entry of R's `repos` option to the quoted mirror URL. */
  const CranSelectionPrefix: string := @"    local({
        r <- getOption('repos')
        r['CRAN'] <- '"
  const CranSelectionSuffix: string := @"'
        options(repos = r)})"

  function SetVsCranSelection(mirrorUrl: string): (r: Request)
    ensures r.Evaluate? && r.kind == Normal
    ensures EndsWith(r.text, ')')
  {
    Evaluate(CranSelectionPrefix + mirrorUrl + CranSelectionSuffix, Normal)
  }

  /** Routes R's browser option to a message that the IDE shows. */
  const HelpRedirectionScript: string := @"options(browser = function(url) { 
      .Call('Microsoft.R.Host::Call.send_message', 'Browser', rtvs:::toJSON(url)) 
  })"

  function SetVsHelpRedirection(): (r: Request)
    ensures r.Evaluate? && r.kind == Normal
    ensures EndsWith(r.text, ')')
  {
    Evaluate(HelpRedirectionScript, Normal)
  }

  /** Defines the R helpers that fetch the Rd text of a help topic. */
  const RdHelpExtractionScript: string := @" .rtvs.signature.help2 <- function(f, p) {
        x <- help(paste(f), paste(p))
        y <- utils:::.getHelpFile(x)
        paste0(y, collapse = '')
    }

    .rtvs.signature.help1 <- function(f) {
        x <- help(paste(f))
        y <- utils:::.getHelpFile(x)
        paste0(y, collapse = '')
    }"

  function SetRdHelpExtraction(): (r: Request)
    ensures r.Evaluate? && r.kind == Normal
  {
    Evaluate(RdHelpExtractionScript, Normal)
  }

  /** Replaces R's `setwd` by one that reports the new directory to the IDE. */
  const ChangeDirectoryRedirectionScript: string := @"utils::assignInNamespace('setwd', function(dir) {
    .Internal(setwd(dir))
    if(getwd() == dir) {
        z <- .Call('Microsoft.R.Host::Call.send_message', '~/', rtvs:::toJSON(dir))
    }
  }, 'base')"

  function SetChangeDirectoryRedirection(): (r: Request)
    ensures r.Evaluate? && r.kind == Normal
  {
    Evaluate(ChangeDirectoryRedirectionScript, Normal)
  }

  // Reading arguments back: distinct arguments give distinct commands, so
  // the host can tell from the text alone what was asked.

  /** The width is recovered from the command. */
  lemma OptionsSetWidthInjective(w1: int32, w2: int32)
    ensures OptionsSetWidth(w1) == OptionsSetWidth(w2) <==> w1 == w2
  {
    if OptionsSetWidth(w1) == OptionsSetWidth(w2) {
      Split.StripAffixes("options(width=as.integer(", Decimal(w1 as int), Decimal(w2 as int), "))\n");
      DecimalInjective(w1 as int, w2 as int);
    }
  }

  /** Two paths give the same command exactly when they agree once
      backslashes are rewritten. */
  lemma SetWorkingDirectoryInjective(p: string, q: string)
    ensures SetWorkingDirectory(p) == SetWorkingDirectory(q) <==> Normalize(p) == Normalize(q)
  {
    if SetWorkingDirectory(p) == SetWorkingDirectory(q) {
      Split.StripAffixes("setwd('", Normalize(p), Normalize(q), "')\n");
    }
  }

  lemma LoadWorkspaceInjective(p: string, q: string)
    ensures LoadWorkspace(p) == LoadWorkspace(q) <==> Normalize(p) == Normalize(q)
  {
    if LoadWorkspace(p) == LoadWorkspace(q) {
      Split.StripAffixes("load('", Normalize(p), Normalize(q), "', .GlobalEnv)\n");
    }
  }

  lemma SaveWorkspaceInjective(p: string, q: string)
    ensures SaveWorkspace(p) == SaveWorkspace(q) <==> Normalize(p) == Normalize(q)
  {
    if SaveWorkspace(p) == SaveWorkspace(q) {
      Split.StripAffixes("save.image(file='", Normalize(p), Normalize(q), "')\n");
    }
  }

  /** Regroups `pre + a + ", " + b + suf` around the comma that separates the two arguments. */
  lemma TwoArguments(pre: string, a: string, b: string, suf: string)
    ensures pre + a + ", " + b + suf == pre + (a + [','] + (" " + b)) + suf
  {
  }

  /** Regroups the bitmap export command around the quote closing the path and the commas before the two sizes. */
  lemma FourArguments(pre: string, n: string, d: string, a: string, b: string, suf: string)
    ensures pre + n + "', " + d + ", " + a + ", " + b + suf
         == pre + (n + ['\''] + (", " + ((d + [','] + (" " + a)) + [','] + (" " + b)))) + suf
  {
  }

  /** Both sizes are recovered from the command. */
  lemma ResizePlotInjective(w1: int32, h1: int32, w2: int32, h2: int32)
    ensures ResizePlot(w1, h1) == ResizePlot(w2, h2) <==> w1 == w2 && h1 == h2
  {
    if ResizePlot(w1, h1) == ResizePlot(w2, h2) {
      var a1, b1 := Decimal(w1 as int), Decimal(h1 as int);
      var a2, b2 := Decimal(w2 as int), Decimal(h2 as int);
      var pre, suf := ".rtvs.vsgdresize(", ")\n";
      TwoArguments(pre, a1, b1, suf);
      TwoArguments(pre, a2, b2, suf);
      Split.StripAffixes(pre, a1 + [','] + (" " + b1), a2 + [','] + (" " + b2), suf);
      DecimalCharacters(w1 as int);
      DecimalCharacters(w2 as int);
      Split.SplitAtFirst(a1, " " + b1, a2, " " + b2, ',');
      assert b1 == (" " + b1)[1..] && b2 == (" " + b2)[1..];
      DecimalInjective(w1 as int, w2 as int);
      DecimalInjective(h1 as int, h2 as int);
    }
  }

  /** With an output path free of single quotes, device name, path and both
      sizes are recovered from the command (the path up to the kind of slash). */
  lemma ExportToBitmapInjective(d1: string, p1: string, w1: int32, h1: int32,
                                d2: string, p2: string, w2: int32, h2: int32)
    requires '\'' !in p1 && '\'' !in p2
    ensures ExportToBitmap(d1, p1, w1, h1) == ExportToBitmap(d2, p2, w2, h2) <==>
              d1 == d2 && Normalize(p1) == Normalize(p2) && w1 == w2 && h1 == h2
  {
    if ExportToBitmap(d1, p1, w1, h1) == ExportToBitmap(d2, p2, w2, h2) {
      var n1, a1, b1 := Normalize(p1), Decimal(w1 as int), Decimal(h1 as int);
      var n2, a2, b2 := Normalize(p2), Decimal(w2 as int), Decimal(h2 as int);
      var pre, suf := ".rtvs.vsgdexportimage('", ")";
      var t1 := (d1 + [','] + (" " + a1)) + [','] + (" " + b1);
      var t2 := (d2 + [','] + (" " + a2)) + [','] + (" " + b2);
      FourArguments(pre, n1, d1, a1, b1, suf);
      FourArguments(pre, n2, d2, a2, b2, suf);
      Split.StripAffixes(pre, n1 + ['\''] + (", " + t1), n2 + ['\''] + (", " + t2), suf);
      NormalizeKeepsOtherChars(p1, '\'');
      NormalizeKeepsOtherChars(p2, '\'');
      Split.SplitAtFirst(n1, ", " + t1, n2, ", " + t2, '\'');
      Split.StripAffixes(", ", t1, t2, "");
      DecimalCharacters(w1 as int);
      DecimalCharacters(w2 as int);
      DecimalCharacters(h1 as int);
      DecimalCharacters(h2 as int);
      Split.SplitAtLast(d1 + [','] + (" " + a1), " " + b1, d2 + [','] + (" " + a2), " " + b2, ',');
      Split.SplitAtLast(d1, " " + a1, d2, " " + a2, ',');
      assert a1 == (" " + a1)[1..] && a2 == (" " + a2)[1..];
      assert b1 == (" " + b1)[1..] && b2 == (" " + b2)[1..];
      DecimalInjective(w1 as int, w2 as int);
      DecimalInjective(h1 as int, h2 as int);
    }
  }

  /** Because neither the path nor the device name is escaped, a quote in the
      output path lets two different exports produce the same command. */
  lemma ExportToBitmapQuoteAmbiguity()
    ensures ExportToBitmap("png", "a', b", 1, 2) == ExportToBitmap("b', png", "a", 1, 2)
  {
  }
}
