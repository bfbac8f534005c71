/** The model roster: `Settings.model_list`, which turns the comma-separated
    `model_ids` setting into the ordered list of model identifiers to try. */
module Config {
  import opened Text

  /** The suffix OpenRouter gives the free variant of a model; all four
      defaults end with it. Writing it once keeps the literals checked by the
      `*IsClean` lemmas short. */
  const Free: string := ":free"

  /** The four models of the default `model_ids`, in the order they are written. */
  const Llama: string := "meta-llama/llama-3.3-70b-instruct" + Free
  const Gemini: string := "google/gemini-2.0-flash-exp" + Free
  const Mistral: string := "mistralai/mistral-small-3.1-24b-instruct" + Free
  const Gemma: string := "google/gemma-3-27b-it" + Free

  /** The value `model_ids` takes when MODEL_IDS is not set: the four
      identifiers above joined by single commas. */
  const DefaultModelIds: string := Llama + "," + (Gemini + "," + (Mistral + "," + Gemma))

  /** Python's `s.split(",")`: the segments between commas, left to right. */
  function Split(s: string): (parts: seq<string>)
    ensures |parts| > 0
    ensures forall k :: 0 <= k < |parts| ==> ',' !in parts[k]
  {
    if |s| == 0 then [""]
    else
      var rest := Split(s[1..]);
      if s[0] == ',' then [""] + rest
      else [[s[0]] + rest[0]] + rest[1..]
  }

  /** Python's `",".join(parts)`. */
  function Join(parts: seq<string>): string {
    if |parts| == 0 then ""
    else if |parts| == 1 then parts[0]
    else parts[0] + "," + Join(parts[1..])
  }

  /** What the comprehension makes of one segment: its stripped text, unless blank. */
  function Keep(part: string): seq<string> {
    var m := Strip(part);
    if m != "" then [m] else []
  }

  /** The list comprehension `[m.strip() for m in parts if m.strip()]`. */
  function Clean(parts: seq<string>): seq<string> {
    if |parts| == 0 then [] else Keep(parts[0]) + Clean(parts[1..])
  }

  /** `Settings.model_list`: every identifier is non-empty, has no surrounding
      whitespace and no comma. */
  function ModelList(modelIds: string): (ids: seq<string>)
    ensures forall k :: 0 <= k < |ids| ==> ids[k] != "" && IsStripped(ids[k]) && ',' !in ids[k]
  {
    CleanShape(Split(modelIds));
    CleanKeepsOut(Split(modelIds), ',');
    Clean(Split(modelIds))
  }

  /** Only non-blank stripped segments are kept. */
  lemma {:induction false} CleanShape(parts: seq<string>)
    ensures forall k :: 0 <= k < |Clean(parts)| ==> Clean(parts)[k] != "" && IsStripped(Clean(parts)[k])
  {
    if |parts| > 0 {
      CleanShape(parts[1..]);
    }
  }

  /** Stripping never brings in a character absent from every segment. */
  lemma {:induction false} CleanKeepsOut(parts: seq<string>, c: char)
    requires forall k :: 0 <= k < |parts| ==> c !in parts[k]
    ensures forall k :: 0 <= k < |Clean(parts)| ==> c !in Clean(parts)[k]
  {
    if |parts| > 0 {
      StripKeepsOut(parts[0], c);
      CleanKeepsOut(parts[1..], c);
    }
  }

  /** There is one segment more than there are commas. */
  lemma {:induction false} SplitCount(s: string)
    ensures |Split(s)| == multiset(s)[','] + 1
  {
    if |s| > 0 {
      SplitCount(s[1..]);
      assert s == [s[0]] + s[1..];
    }
  }

  /** At most one identifier per comma-separated segment. */
  lemma ModelListBound(modelIds: string)
    ensures |ModelList(modelIds)| <= multiset(modelIds)[','] + 1
  {
    SplitCount(modelIds);
    CleanLength(Split(modelIds));
  }

  lemma {:induction false} CleanLength(parts: seq<string>)
    ensures |Clean(parts)| <= |parts|
  {
    if |parts| > 0 {
      CleanLength(parts[1..]);
    }
  }

  /** Joining the segments of a split gives the string back. */
  lemma {:induction false} JoinSplit(s: string)
    ensures Join(Split(s)) == s
  {
    if |s| > 0 {
      var rest := Split(s[1..]);
      JoinSplit(s[1..]);
      assert s == [s[0]] + s[1..];
      if s[0] == ',' {
        assert Split(s) == [""] + rest;
        assert Join(Split(s)) == "" + "," + Join(rest);
      } else if |rest| == 1 {
        assert Split(s) == [[s[0]] + rest[0]];
      } else {
        var parts := Split(s);
        assert parts == [[s[0]] + rest[0]] + rest[1..];
        assert parts[1..] == rest[1..];
        assert Join(parts) == [s[0]] + rest[0] + "," + Join(rest[1..]);
        assert Join(rest) == rest[0] + "," + Join(rest[1..]);
      }
    }
  }

  /** Splitting at a comma splits the segments there and nowhere else. */
  lemma {:induction false} SplitAppend(a: string, b: string)
    ensures Split(a + "," + b) == Split(a) + Split(b)
  {
    var s := a + "," + b;
    if |a| == 0 {
      assert s[1..] == b;
    } else {
      assert s[1..] == a[1..] + "," + b;
      SplitAppend(a[1..], b);
    }
  }

  /** A segment with no comma splits to itself. */
  lemma {:induction false} SplitNoComma(a: string)
    requires ',' !in a
    ensures Split(a) == [a]
  {
    if |a| > 0 {
      SplitNoComma(a[1..]);
      assert [a[0]] + a[1..] == a;
    }
  }

  /** Comma-free segments survive a join followed by a split. */
  lemma {:induction false} SplitJoin(parts: seq<string>)
    requires |parts| > 0
    requires forall k :: 0 <= k < |parts| ==> ',' !in parts[k]
    ensures Split(Join(parts)) == parts
  {
    if |parts| == 1 {
      SplitNoComma(parts[0]);
    } else {
      SplitJoin(parts[1..]);
      SplitAppend(parts[0], Join(parts[1..]));
      SplitNoComma(parts[0]);
    }
  }

  /** The comprehension treats each segment independently and keeps their order. */
  lemma {:induction false} CleanAppend(p: seq<string>, q: seq<string>)
    ensures Clean(p + q) == Clean(p) + Clean(q)
  {
    if |p| == 0 {
      assert p + q == q;
    } else {
      var pq := p + q;
      assert pq[0] == p[0] && pq[1..] == p[1..] + q;
      assert Clean(pq) == Keep(p[0]) + Clean(p[1..] + q);
      CleanAppend(p[1..], q);
    }
  }

  /** Identifiers keep the left-to-right order of the text they come from:
      the roster of `a,b` is the roster of `a` followed by the roster of `b`. */
  lemma ModelListAppend(a: string, b: string)
    ensures ModelList(a + "," + b) == ModelList(a) + ModelList(b)
  {
    SplitAppend(a, b);
    CleanAppend(Split(a), Split(b));
  }

  /** A single segment yields its stripped text, or nothing when that is blank. */
  lemma ModelListSegment(a: string)
    requires ',' !in a
    ensures ModelList(a) == if AllSpace(a) then [] else [Strip(a)]
  {
    SplitNoComma(a);
    StripSlice(a);
    assert Clean([a]) == (if Strip(a) != "" then [Strip(a)] else []) + Clean([]);
  }

  /** Each segment stripped, blank ones included. */
  function StripAll(parts: seq<string>): (r: seq<string>)
    ensures |r| == |parts|
  {
    if |parts| == 0 then [] else [Strip(parts[0])] + StripAll(parts[1..])
  }

  /** Nothing but blank segments is dropped: every identifier occurs in the
      roster as often as it occurs among the stripped segments, so repeated
      identifiers are all kept. */
  lemma {:induction false} CleanKeepsDuplicates(parts: seq<string>, x: string)
    requires x != ""
    ensures multiset(Clean(parts))[x] == multiset(StripAll(parts))[x]
  {
    if |parts| > 0 {
      var m := Strip(parts[0]);
      var head := if m != "" then [m] else [];
      CleanKeepsDuplicates(parts[1..], x);
      assert Clean(parts) == head + Clean(parts[1..]);
      assert multiset(head)[x] == multiset([m])[x];
    }
  }

  lemma ModelListKeepsDuplicates(modelIds: string, x: string)
    requires x != ""
    ensures multiset(ModelList(modelIds))[x] == multiset(StripAll(Split(modelIds)))[x]
  {
    CleanKeepsDuplicates(Split(modelIds), x);
  }

  /** A clean identifier at the head of the list is kept as it is. */
  lemma CleanKeepsHead(ids: seq<string>)
    requires |ids| > 0 && ids[0] != "" && IsStripped(ids[0])
    ensures Clean(ids) == [ids[0]] + Clean(ids[1..])
  {
    StripStripped(ids[0]);
  }

  /** Identifiers that are already clean pass through the comprehension unchanged. */
  lemma {:induction false} CleanClean(ids: seq<string>)
    requires forall k :: 0 <= k < |ids| ==> ids[k] != "" && IsStripped(ids[k])
    ensures Clean(ids) == ids
  {
    if |ids| > 0 {
      CleanKeepsHead(ids);
      assert forall k :: 0 <= k < |ids[1..]| ==> ids[1..][k] == ids[k + 1];
      CleanClean(ids[1..]);
      assert Clean(ids[1..]) == ids[1..];
      assert Clean(ids) == [ids[0]] + ids[1..];
      assert ids == [ids[0]] + ids[1..];
    }
  }

  /** Parsing is idempotent: re-parsing the comma-joined roster gives the same roster. */
  lemma ModelListIdempotent(modelIds: string)
    ensures ModelList(Join(ModelList(modelIds))) == ModelList(modelIds)
  {
    ModelListOfJoin(ModelList(modelIds));
  }

  /** Clean comma-free identifiers joined by commas parse back to themselves. */
  lemma ModelListOfJoin(ids: seq<string>)
    requires forall k :: 0 <= k < |ids| ==> ids[k] != "" && IsStripped(ids[k]) && ',' !in ids[k]
    ensures ModelList(Join(ids)) == ids
  {
    if |ids| == 0 {
      assert ModelList("") == Clean([""]);
    } else {
      SplitJoin(ids);
      CleanClean(ids);
    }
  }

  lemma JoinFour(a: string, b: string, c: string, d: string)
    ensures Join([a, b, c, d]) == a + "," + (b + "," + (c + "," + d))
  {
    assert [a, b, c, d][1..] == [b, c, d];
    assert [b, c, d][1..] == [c, d];
    assert [c, d][1..] == [d];
    assert Join([c, d]) == c + "," + d;
    assert Join([b, c, d]) == b + "," + (c + "," + d);
  }

  /** Each default identifier is already a clean roster entry. */
  lemma DefaultsAreClean()
    ensures forall m :: m in [Llama, Gemini, Mistral, Gemma] ==> m != "" && IsStripped(m) && ',' !in m
  {
    LlamaIsClean();
    GeminiIsClean();
    MistralIsClean();
    GemmaIsClean();
  }

  lemma LlamaIsClean() ensures Llama != "" && IsStripped(Llama) && ',' !in Llama {}
  lemma GeminiIsClean() ensures Gemini != "" && IsStripped(Gemini) && ',' !in Gemini {}
  lemma MistralIsClean() ensures Mistral != "" && IsStripped(Mistral) && ',' !in Mistral {}
  lemma GemmaIsClean() ensures Gemma != "" && IsStripped(Gemma) && ',' !in Gemma {}

  /** The default setting names exactly four models, in this order. */
  lemma DefaultModelList()
    ensures ModelList(DefaultModelIds) == [Llama, Gemini, Mistral, Gemma]
  {
    DefaultsAreClean();
    JoinFour(Llama, Gemini, Mistral, Gemma);
    ModelListOfJoin([Llama, Gemini, Mistral, Gemma]);
  }
}
