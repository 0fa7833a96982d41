/** The names of the MIDI files the handler renders and the plan of what it renders ahead of time.

    A MIDI file is named after the score file followed by one segment per playback option given:
    `sel-` and the selection, `p` and the part, `i` and the instrument, `s` and `e` and the first
    and last bar, `c` and the click track, `t` and the tempo, then ".mid". */
module MidiNames {
  import opened Wrappers
  import opened Text

  /** The optional name segments of a MIDI file, one per playback option. */
  datatype MidiOptions = MidiOptions(
    sel: Option<string>, part: Option<string>, ins: Option<string>, start: Option<string>,
    end: Option<string>, click: Option<string>, tempo: Option<string>)

  /** A prefix followed by the value, or nothing when the option is absent. */
  function Segment(prefix: string, v: Option<string>): string {
    if v.Some? then prefix + v.value else ""
  }

  /** All segments, in the order the name lists them. */
  function OptionSegments(o: MidiOptions): string {
    Segment("sel-", o.sel) + Segment("p", o.part) + Segment("i", o.ins) + Segment("s", o.start)
      + Segment("e", o.end) + Segment("c", o.click) + Segment("t", o.tempo)
  }

  /** Query parameter names and the name prefixes they bring, in name order. */
  const QueryParams: seq<(string, string)> :=
    [("sel", "sel-"), ("part", "p"), ("ins", "i"), ("start", "s"), ("end", "e"), ("c", "c"), ("t", "t")]

  /** `query.get(name)`. */
  function Lookup(query: map<string, string>, name: string): Option<string> {
    if name in query then Some(query[name]) else None
  }

  /** The segments the first `n` of the given parameters add, in order. */
  function QuerySegments(query: map<string, string>, params: seq<(string, string)>, n: nat): string
    requires n <= |params|
  {
    if n == 0 then ""
    else QuerySegments(query, params, n - 1) + Segment(params[n - 1].1, Lookup(query, params[n - 1].0))
  }

  /** The options a query asks for. */
  function QueryOptions(query: map<string, string>): MidiOptions {
    MidiOptions(Lookup(query, "sel"), Lookup(query, "part"), Lookup(query, "ins"), Lookup(query, "start"),
      Lookup(query, "end"), Lookup(query, "c"), Lookup(query, "t"))
  }

  /** Naming a file from the query gives the name the options from that query give. */
  lemma QueryNamesMatchOptions(query: map<string, string>)
    ensures QuerySegments(query, QueryParams, |QueryParams|) == OptionSegments(QueryOptions(query))
  {
    var ps := QueryParams;
    var o := QueryOptions(query);
    var s0, s1, s2, s3 := Segment("sel-", o.sel), Segment("p", o.part), Segment("i", o.ins), Segment("s", o.start);
    var s4, s5, s6 := Segment("e", o.end), Segment("c", o.click), Segment("t", o.tempo);
    assert QuerySegments(query, ps, 1) == s0;
    assert QuerySegments(query, ps, 2) == s0 + s1;
    assert QuerySegments(query, ps, 3) == s0 + s1 + s2;
    assert QuerySegments(query, ps, 4) == s0 + s1 + s2 + s3;
    assert QuerySegments(query, ps, 5) == s0 + s1 + s2 + s3 + s4;
    assert QuerySegments(query, ps, 6) == s0 + s1 + s2 + s3 + s4 + s5;
  }

  /** What to render ahead of time: the mode, the tempo percentages and the click variants. */
  datatype CachePlan = CachePlan(mode: string, tempos: seq<int>, clicks: seq<string>)

  /** The request's upfront flag counts when it is present and not empty, as Python's truth test reads text. */
  function ShouldGenerateCacheFiles(upfront: Option<string>): (plan: CachePlan)
    ensures plan.mode == "upfront" <==> upfront.Some? && upfront.value != ""
    ensures 100 in plan.tempos && "n" in plan.clicks
    ensures plan.mode != "upfront" ==> plan.tempos == [50, 100, 150] && plan.clicks == ["n", "be"]
    ensures plan.mode == "upfront" ==> plan.tempos == [100] && plan.clicks == ["n"]
  {
    if upfront.Some? && upfront.value != "" then CachePlan("upfront", [100], ["n"])
    else CachePlan("ondemand", [50, 100, 150], ["n", "be"])
  }

  /** The base name followed by the segment of every query parameter present. */
  method NameFromQuery(filename: string, query: map<string, string>) returns (name: string)
    ensures name == filename + QuerySegments(query, QueryParams, |QueryParams|)
  {
    name := filename;
    var i := 0;
    while i < |QueryParams|
      invariant 0 <= i <= |QueryParams|
      invariant name == filename + QuerySegments(query, QueryParams, i)
    {
      var (paramName, prefix) := QueryParams[i];
      var paramValue := Lookup(query, paramName);
      if paramValue.Some? {
        name := name + prefix + paramValue.value;
      }
      i := i + 1;
    }
  }
}
