/** How the middleware decides the trace and span of a request
    (gcp_logging.py lines 84-98): from Google Cloud's `X-Cloud-Trace-Context`
    header, `"<trace>/<span>;o=<flag>"`, when that header is trusted and present,
    otherwise a fresh 32-character identifier; the trace is then placed under the
    project's namespace. The random choices are an input, `draws`. */
module TraceContext {
  import opened Wrappers
  import opened Text
  import opened Settings

  const Alphabet := "abcdefghijklmnopqrstuvwxyz1234567890"
  const SyntheticLength := 32

  /** The `META` key under which Django files `X-Cloud-Trace-Context`. */
  const TraceHeaderKey := "HTTP_X_CLOUD_TRACE_CONTEXT"

  datatype Context = Context(trace: string, span: Option<string>)

  /** A context that a header can carry unambiguously. */
  predicate WellFormed(c: Context)
  {
    && '/' !in c.trace
    && (c.span.Some? ==> '/' !in c.span.value && ';' !in c.span.value)
  }

  /** The outcome of the 32 calls to `random.choice(Alphabet)`, as indices. */
  predicate ValidDraws(draws: seq<nat>)
  {
    |draws| == SyntheticLength && forall i :: 0 <= i < |draws| ==> draws[i] < |Alphabet|
  }

  /** The synthesized trace identifier. */
  function Synthesize(draws: seq<nat>): (id: string)
    requires ValidDraws(draws)
    ensures |id| == SyntheticLength
    ensures forall i :: 0 <= i < |id| ==> id[i] in Alphabet
  {
    seq(SyntheticLength, i requires 0 <= i < SyntheticLength => Alphabet[draws[i]])
  }

  /** Every 32-character identifier over the alphabet can be synthesized. */
  lemma SynthesizeCovers(id: string)
    requires |id| == SyntheticLength
    requires forall i :: 0 <= i < |id| ==> id[i] in Alphabet
    ensures exists draws :: ValidDraws(draws) && Synthesize(draws) == id
  {
    var draws := seq(SyntheticLength, i requires 0 <= i < SyntheticLength => IndexOf(Alphabet, id[i]).value);
    assert ValidDraws(draws);
    assert Synthesize(draws) == id;
  }

  /** The header parsed as the source does: split on `/`, keep the first piece as
      the trace; when there is a second piece, split it on `;` and keep the first
      piece as the span. Later pieces are ignored. */
  function ParseHeader(h: string): (c: Context)
    ensures WellFormed(c)
    ensures c.span.None? <==> '/' !in h
  {
    var raw := Split(h, '/');
    SplitMany(h, '/');
    if |raw| > 1 then
      var span := Split(raw[1], ';')[0];
      SplitHead(raw[1], ';');
      Context(raw[0], Some(span))
    else
      Context(raw[0], None)
  }

  /** The same parse stated without splitting: the trace runs up to the first `/`,
      the span from there up to the next `/` or `;`. */
  function ReferenceParse(h: string): Context
  {
    var trace := TakeUntil(h, {'/'});
    if '/' in h then Context(trace, Some(TakeUntil(h[|trace| + 1..], {'/', ';'})))
    else Context(trace, None)
  }

  lemma ParseMatchesReference(h: string)
    ensures ParseHeader(h) == ReferenceParse(h)
  {
    var raw := Split(h, '/');
    SplitHead(h, '/');
    SplitMany(h, '/');
    if '/' in h {
      SpanMatchesReference(h);
      assert ParseHeader(h) == Context(raw[0], Some(Split(raw[1], ';')[0]));
    } else {
      assert ParseHeader(h) == Context(raw[0], None);
    }
  }

  lemma SpanMatchesReference(h: string)
    requires '/' in h
    ensures |Split(h, '/')| > 1
    ensures Split(Split(h, '/')[1], ';')[0] == TakeUntil(h[|TakeUntil(h, {'/'})| + 1..], {'/', ';'})
  {
    var rest := h[|TakeUntil(h, {'/'})| + 1..];
    SplitSecond(h, '/');
    SplitHead(Split(h, '/')[1], ';');
    TakeUntilTwice(rest, {'/'}, {';'});
    assert {'/'} + {';'} == {'/', ';'};
  }

  /** The header a client sends for a context (`o=<flag>` only with a span). */
  function FormatHeader(c: Context, flag: string): string
  {
    if c.span.Some? then c.trace + "/" + c.span.value + ";o=" + flag else c.trace
  }

  /** Parsing a formatted header gives back its trace and span, whatever the flag
      (even one holding further `/`). */
  lemma ParseFormat(c: Context, flag: string)
    requires WellFormed(c)
    ensures ParseHeader(FormatHeader(c, flag)) == c
  {
    var h := FormatHeader(c, flag);
    ParseMatchesReference(h);
    if c.span.Some? {
      ParseFormatWithSpan(c.trace, c.span.value, flag);
    } else {
      TakeUntilWhole(h, {'/'});
    }
  }

  lemma ParseFormatWithSpan(trace: string, span: string, flag: string)
    requires '/' !in trace && '/' !in span && ';' !in span
    ensures ReferenceParse(trace + "/" + span + ";o=" + flag) == Context(trace, Some(span))
  {
    var h := trace + "/" + span + ";o=" + flag;
    var tail := span + ";o=" + flag;
    assert h == trace + ("/" + tail);
    TakeUntilConcat(trace, "/" + tail, {'/'});
    assert h[|trace|] == '/';
    assert h[|trace| + 1..] == span + (";o=" + flag);
    TakeUntilConcat(span, ";o=" + flag, {'/', ';'});
  }

  /** The namespace every trace is placed under. */
  function TracePrefix(project: string): string
  {
    "projects/" + project + "/traces/"
  }

  /** Whether the request's trace header is used: only when configured, and only
      when the header is present and not empty. */
  function HeaderUsed(cfg: Config, meta: map<string, string>): (r: bool)
    ensures r <==> cfg.useCloudContext && TraceHeaderKey in meta && meta[TraceHeaderKey] != ""
  {
    cfg.useCloudContext && Truthy(Get(meta, TraceHeaderKey))
  }

  /** The trace and span the middleware attaches to everything logged for this request. */
  function DeriveContext(cfg: Config, meta: map<string, string>, draws: seq<nat>): (c: Context)
    requires ValidDraws(draws)
    ensures |TracePrefix(cfg.project)| <= |c.trace|
    ensures c.trace[..|TracePrefix(cfg.project)|] == TracePrefix(cfg.project)
    ensures HeaderUsed(cfg, meta) ==>
      Context(c.trace[|TracePrefix(cfg.project)|..], c.span) == ReferenceParse(meta[TraceHeaderKey])
    ensures HeaderUsed(cfg, meta) ==>
      && '/' !in c.trace[|TracePrefix(cfg.project)|..]
      && (c.span.None? <==> '/' !in meta[TraceHeaderKey])
    ensures !HeaderUsed(cfg, meta) ==>
      && |c.trace| == |TracePrefix(cfg.project)| + SyntheticLength
      && (forall i :: |TracePrefix(cfg.project)| <= i < |c.trace| ==> c.trace[i] in Alphabet)
      && c.span.None?
  {
    var prefix := TracePrefix(cfg.project);
    var local :=
      if HeaderUsed(cfg, meta) then
        ParseMatchesReference(meta[TraceHeaderKey]);
        ParseHeader(meta[TraceHeaderKey])
      else Context(Synthesize(draws), None);
    assert (prefix + local.trace)[|prefix|..] == local.trace;
    Context(prefix + local.trace, local.span)
  }
}
