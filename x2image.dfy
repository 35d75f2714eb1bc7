/** Model of diffuzers/x2image.py: choosing a fresh token name when textual
    inversion embeddings are loaded, substituting the scheduler of one of the
    two pipelines, the per-request image count and metadata, the generate
    flow that ties these to `save_images`, and the order in which the
    scheduler choices are offered. The diffusion pipelines themselves are
    external: their inference is a function parameter, their schedulers and
    configurations are opaque values. */
module X2Image {
  import opened Wrappers
  import opened Strings
  import Utils

  // ---------------------------------------------------------------------
  // load_embed: the token name

  /** The tokenizer, as far as `add_tokens` is concerned: the set of tokens
      it knows. */
  class Tokenizer {
    var vocab: set<string>

    constructor (vocab: set<string>)
      ensures this.vocab == vocab
    {
      this.vocab := vocab;
    }

    /** `add_tokens(token)`: 0 when the token is already known, otherwise the
        token is added and 1 is returned. */
    method AddTokens(token: string) returns (added: nat)
      modifies this
      ensures added == if token in old(vocab) then 0 else 1
      ensures vocab == old(vocab) + {token}
    {
      added := if token in vocab then 0 else 1;
      vocab := vocab + {token};
    }
  }

  /** Python's `s[:-1]`. */
  function DropLast(s: string): (r: string)
    ensures |r| == if |s| == 0 then 0 else |s| - 1
    ensures r <= s
  {
    if |s| == 0 then "" else s[..|s| - 1]
  }

  /** `f"{token[:-1]}-{i}>"`: the name tried after `token` was refused. It
      keeps all of `token` but its last character and is at least two
      characters longer. */
  function Rename(token: string, i: nat): (r: string)
    ensures |r| >= |token| + 2
  {
    DropLast(token) + "-" + NatToString(i) + ">"
  }

  /** The retry counter can be read back from the retry name: between the
      kept part of `token` plus '-' and the closing '>' stand the decimal
      digits of exactly `i`. */
  lemma RenameCounterReadsBack(token: string, i: nat)
    ensures var r := Rename(token, i);
      var digits := r[|DropLast(token)| + 1..|r| - 1];
      && DropLast(token) + "-" <= r
      && r[|r| - 1] == '>'
      && AllDigits(digits)
      && ParseDecimal(digits) == i
  {
    var r := Rename(token, i);
    assert r == (DropLast(token) + "-") + NatToString(i) + ">";
    assert r[|DropLast(token)| + 1..|r| - 1] == NatToString(i);
    ParseNatToString(i);
  }

  /** The k-th name the loop tries for `token`: `token` itself, then the
      rename with i = 1, then the rename of that with i = 2, and so on. */
  function Candidate(token: string, k: nat): string
    decreases k
  {
    if k == 0 then token else Rename(Candidate(token, k - 1), k)
  }

  /** Every retry makes the candidate at least two characters longer. */
  lemma {:induction false} CandidateGrowth(token: string, j: nat, k: nat)
    requires j <= k
    ensures |Candidate(token, k)| >= |Candidate(token, j)| + 2 * (k - j)
    decreases k
  {
    if j < k {
      CandidateGrowth(token, j, k - 1);
    }
  }

  /** No name is tried twice. */
  lemma CandidatesDistinct(token: string, j: nat, k: nat)
    requires j < k
    ensures Candidate(token, j) != Candidate(token, k)
  {
    CandidateGrowth(token, j, k);
  }

  /** The length of the longest known token. */
  ghost function MaxLen(vocab: set<string>): (m: nat)
    ensures forall w :: w in vocab ==> |w| <= m
    decreases vocab
  {
    if vocab == {} then 0
    else
      var w :| w in vocab;
      var rest := MaxLen(vocab - {w});
      if |w| > rest then |w| else rest
  }

  /** A finite vocabulary refuses only finitely many candidates: the one
      tried after at most MaxLen(vocab) / 2 + 1 retries is new. */
  lemma EventuallyAccepted(vocab: set<string>, token: string)
    ensures Candidate(token, MaxLen(vocab) / 2 + 1) !in vocab
  {
    CandidateGrowth(token, 0, MaxLen(vocab) / 2 + 1);
  }

  /** What the rename loop ends with, starting from `candidate` with counter
      `i`: the first candidate the vocabulary does not hold. */
  function Resolve(vocab: set<string>, candidate: string, i: nat): (r: string)
    ensures r !in vocab
    decreases MaxLen(vocab) + 1 - |candidate|
  {
    if candidate !in vocab then candidate else Resolve(vocab, Rename(candidate, i), i + 1)
  }

  /** From the m-th candidate on, the loop stops at some later candidate k,
      all candidates in between having been refused. */
  lemma {:induction false} ResolveFrom(vocab: set<string>, token: string, m: nat) returns (k: nat)
    ensures m <= k
    ensures Resolve(vocab, Candidate(token, m), m + 1) == Candidate(token, k)
    ensures forall j :: m <= j < k ==> Candidate(token, j) in vocab
    decreases MaxLen(vocab) + 1 - |Candidate(token, m)|
  {
    var c := Candidate(token, m);
    if c !in vocab {
      k := m;
    } else {
      assert |c| <= MaxLen(vocab);
      assert Candidate(token, m + 1) == Rename(c, m + 1);
      assert Resolve(vocab, c, m + 1) == Resolve(vocab, Rename(c, m + 1), m + 2);
      k := ResolveFrom(vocab, token, m + 1);
      forall j | m <= j < k
        ensures Candidate(token, j) in vocab
      {
        if j == m {
          assert Candidate(token, j) == c;
        }
      }
    }
  }

  /** The name `load_embed` settles on is the first candidate the tokenizer
      did not know; all earlier candidates were known; it is the requested
      name itself when that was new; and the number of retries is bounded by
      the longest known token. */
  lemma ChosenToken(vocab: set<string>, token: string) returns (k: nat)
    ensures Resolve(vocab, token, 1) == Candidate(token, k)
    ensures Resolve(vocab, token, 1) !in vocab
    ensures forall j :: 0 <= j < k ==> Candidate(token, j) in vocab
    ensures token !in vocab <==> k == 0
    ensures k == 0 || |token| + 2 * (k - 1) <= MaxLen(vocab)
  {
    assert Candidate(token, 0) == token;
    k := ResolveFrom(vocab, token, 0);
    if k > 0 {
      assert Candidate(token, 0) in vocab;
      assert Candidate(token, k - 1) in vocab;
      CandidateGrowth(token, 0, k - 1);
    }
  }

  /** Why `load_embed` could not pick a token name: no name was passed and
      the embeddings file is in the layout that does not carry one (the
      Python code then reads an unbound `trained_token`). */
  datatype EmbedError = NoTokenName

  /** The token part of `load_embed`. `trainedToken` is the first key of the
      loaded embeddings file when it holds at most two entries, None for
      the "string_to_param" layout. */
  method LoadEmbedToken(tokenizer: Tokenizer, token: Option<string>, trainedToken: Option<string>)
    returns (r: Result<string, EmbedError>)
    modifies tokenizer
    ensures token.None? && trainedToken.None? ==>
      r == Failure(NoTokenName) && tokenizer.vocab == old(tokenizer.vocab)
    ensures token.Some? || trainedToken.Some? ==>
      var requested := if token.Some? then token.value else trainedToken.value;
      && r == Success(Resolve(old(tokenizer.vocab), requested, 1))
      && r.value !in old(tokenizer.vocab)
      && tokenizer.vocab == old(tokenizer.vocab) + {r.value}
      && (requested !in old(tokenizer.vocab) ==> r.value == requested)
  {
    var name: string;
    if token.Some? {
      name := token.value;
    } else if trainedToken.Some? {
      name := trainedToken.value;
    } else {
      return Failure(NoTokenName);
    }
    ghost var vocab0 := tokenizer.vocab;
    ghost var requested := name;
    var added := tokenizer.AddTokens(name);
    var i := 1;
    while added == 0
      invariant i >= 1
      invariant Resolve(vocab0, name, i) == Resolve(vocab0, requested, 1)
      invariant added == 0 ==> name in vocab0 && tokenizer.vocab == vocab0
      invariant added != 0 ==> name !in vocab0 && tokenizer.vocab == vocab0 + {name}
      decreases MaxLen(vocab0) + 1 - |name|
    {
      name := Rename(name, i);
      added := tokenizer.AddTokens(name);
      i := i + 1;
    }
    r := Success(name);
  }

  // ---------------------------------------------------------------------
  // Schedulers and pipelines

  /** A scheduler class from the pipeline's `compatibles`, known by its
      `__name__`. */
  datatype SchedulerClass = SchedulerClass(name: string)

  /** A scheduler configuration; opaque. */
  datatype SchedulerConfig = SchedulerConfig(id: nat)

  /** A scheduler instance: its class and the configuration it was built
      from. The configuration a scheduler reports as its `.config` is the
      library's business and is kept apart from this (see `configOf` in the
      X2Image class). */
  datatype Scheduler = Scheduler(cls: SchedulerClass, builtFrom: SchedulerConfig)

  /** `cls.from_config(config)`: a scheduler of class `cls` built from
      `config`. */
  function FromConfig(cls: SchedulerClass, config: SchedulerConfig): (s: Scheduler)
    ensures s.cls == cls && s.builtFrom == config
  {
    Scheduler(cls, config)
  }

  /** A diffusion pipeline object; only its replaceable scheduler is modelled. */
  class Pipeline {
    var scheduler: Scheduler

    constructor (scheduler: Scheduler)
      ensures this.scheduler == scheduler
    {
      this.scheduler := scheduler;
    }
  }

  /** `{s.__name__: s for s in compatibles}`. A class is known by its
      `__name__` alone here, so two entries with the same name are the same
      class, and which of them the dictionary keeps cannot be told apart. */
  function CompatibleSchedulers(compatibles: seq<SchedulerClass>): (m: map<string, SchedulerClass>)
    ensures forall c :: c in compatibles ==> c.name in m
    ensures forall n :: n in m ==> m[n].name == n && m[n] in compatibles
    decreases |compatibles|
  {
    if |compatibles| == 0 then map[]
    else
      var last := |compatibles| - 1;
      CompatibleSchedulers(compatibles[..last])[compatibles[last].name := compatibles[last]]
  }

  /** `list(compatible_schedulers.keys())`: the names in the order a Python
      dictionary keeps them, that of first insertion. */
  function SchedulerNames(compatibles: seq<SchedulerClass>): (names: seq<string>)
    ensures forall n :: n in names <==> n in CompatibleSchedulers(compatibles)
    ensures forall a, b :: 0 <= a < b < |names| ==> names[a] != names[b]
    decreases |compatibles|
  {
    if |compatibles| == 0 then []
    else
      var last := |compatibles| - 1;
      var earlier := SchedulerNames(compatibles[..last]);
      if compatibles[last].name in earlier then earlier else earlier + [compatibles[last].name]
  }

  /** The `__name__`s of `compatibles`, in order and with repetitions. */
  function ClassNames(compatibles: seq<SchedulerClass>): (names: seq<string>)
    ensures |names| == |compatibles|
    ensures forall k :: 0 <= k < |compatibles| ==> names[k] == compatibles[k].name
    decreases |compatibles|
  {
    if |compatibles| == 0 then []
    else ClassNames(compatibles[..|compatibles| - 1]) + [compatibles[|compatibles| - 1].name]
  }

  /** The name of every compatible class is a key of the dictionary. */
  lemma ClassNamesAreSchedulerNames(compatibles: seq<SchedulerClass>)
    ensures forall n :: n in ClassNames(compatibles) ==> n in SchedulerNames(compatibles)
  {
    forall n | n in ClassNames(compatibles)
      ensures n in SchedulerNames(compatibles)
    {
      var k :| 0 <= k < |compatibles| && ClassNames(compatibles)[k] == n;
      assert compatibles[k] in compatibles;
    }
  }

  /** The first position of x in a prefix of s that holds it is its first
      position in s. */
  lemma IndexOfPrefix(s: seq<string>, m: nat, x: string)
    requires m <= |s| && x in s[..m]
    ensures x in s && IndexOf(s, x) == IndexOf(s[..m], x)
  {
    var k := IndexOf(s[..m], x);
    assert s[k] == x;
    assert forall j :: 0 <= j < k ==> s[..m][j] == s[j];
  }

  /** A name the prefix lacks sits first at the end. */
  lemma IndexOfLast(s: seq<string>, x: string)
    requires |s| > 0 && s[|s| - 1] == x && x !in s[..|s| - 1]
    ensures IndexOf(s, x) == |s| - 1
  {
    assert s[..|s| - 1] + [x] == s;
  }

  /** Every dictionary key is the `__name__` of some compatible class. */
  lemma SchedulerNamesAreClassNames(compatibles: seq<SchedulerClass>)
    ensures forall n :: n in SchedulerNames(compatibles) ==> n in ClassNames(compatibles)
  {
    var s := ClassNames(compatibles);
    forall n | n in SchedulerNames(compatibles)
      ensures n in s
    {
      var c := CompatibleSchedulers(compatibles)[n];
      var i :| 0 <= i < |compatibles| && compatibles[i] == c;
      assert s[i] == n;
    }
  }

  /** `names` are names of `s`, listed in the order of their first
      positions in `s`. */
  ghost predicate InFirstOccurrenceOrder(s: seq<string>, names: seq<string>) {
    && (forall n :: n in names ==> n in s)
    && (forall a, b :: 0 <= a < b < |names| ==> IndexOf(s, names[a]) < IndexOf(s, names[b]))
  }

  /** Appending one name to `s` keeps the order of the names already listed,
      and a name new to `s` may be appended to them. */
  lemma FirstOccurrenceOrderExtend(s: seq<string>, names: seq<string>, x: string)
    requires InFirstOccurrenceOrder(s, names)
    ensures InFirstOccurrenceOrder(s + [x], names)
    ensures x !in s ==> InFirstOccurrenceOrder(s + [x], names + [x])
  {
    var t := s + [x];
    assert t[..|s|] == s;
    forall a | 0 <= a < |names|
      ensures names[a] in t && IndexOf(t, names[a]) == IndexOf(s, names[a]) < |s|
    {
      IndexOfPrefix(t, |s|, names[a]);
    }
    if x !in s {
      IndexOfLast(t, x);
      var ext := names + [x];
      forall a, b | 0 <= a < b < |ext|
        ensures IndexOf(t, ext[a]) < IndexOf(t, ext[b])
      {
        assert ext[a] == names[a];
        if b < |names| {
          assert ext[b] == names[b];
        }
      }
    }
  }

  /** The dictionary's key list is in the order in which the keys first occur
      in `compatibles`, the order of first insertion. */
  lemma {:induction false} SchedulerNamesFirstOccurrence(compatibles: seq<SchedulerClass>)
    ensures InFirstOccurrenceOrder(ClassNames(compatibles), SchedulerNames(compatibles))
    decreases |compatibles|
  {
    if |compatibles| > 0 {
      var last := |compatibles| - 1;
      var pre := compatibles[..last];
      var x := compatibles[last].name;
      SchedulerNamesFirstOccurrence(pre);
      SchedulerNamesAreClassNames(pre);
      ClassNamesAreSchedulerNames(pre);
      assert x in SchedulerNames(pre) <==> x in ClassNames(pre);
      FirstOccurrenceOrderExtend(ClassNames(pre), SchedulerNames(pre), x);
    }
  }

  /** What `_set_scheduler` and the generate methods can raise. */
  datatype X2ImageError =
    | UnsupportedPipeline(pipelineName: string)  // ValueError("Pipeline ... not supported")
    | UnknownScheduler(schedulerName: string)     // KeyError from compatible_schedulers
    | SaveFailed(cause: Utils.SaveError)          // raised by save_images in _postgen

  /** `_set_scheduler` on the schedulers (text2img, img2img) of the two
      pipelines: the new pair, or the error raised before anything changes.
      `configOf` gives the configuration a scheduler reports as its `.config`. */
  function SchedulerUpdate(compatible: map<string, SchedulerClass>, configOf: Scheduler -> SchedulerConfig,
                           pipelineName: string, schedulerName: string,
                           current: (Scheduler, Scheduler)): (r: Result<(Scheduler, Scheduler), X2ImageError>)
    ensures pipelineName != "text2img" && pipelineName != "img2img" ==>
      r == Failure(UnsupportedPipeline(pipelineName))
    ensures (pipelineName == "text2img" || pipelineName == "img2img") && schedulerName !in compatible ==>
      r == Failure(UnknownScheduler(schedulerName))
    ensures r.Success? <==>
      (pipelineName == "text2img" || pipelineName == "img2img") && schedulerName in compatible
    ensures r.Success? && pipelineName == "text2img" ==>
      && r.value.0.cls == compatible[schedulerName]
      && r.value.0.builtFrom == configOf(current.0)
      && r.value.1 == current.1
    ensures r.Success? && pipelineName == "img2img" ==>
      && r.value.1.cls == compatible[schedulerName]
      && r.value.1.builtFrom == configOf(current.1)
      && r.value.0 == current.0
  {
    if pipelineName != "text2img" && pipelineName != "img2img" then
      Failure(UnsupportedPipeline(pipelineName))
    else if schedulerName !in compatible then
      Failure(UnknownScheduler(schedulerName))
    else if pipelineName == "text2img" then
      Success((FromConfig(compatible[schedulerName], configOf(current.0)), current.1))
    else
      Success((current.0, FromConfig(compatible[schedulerName], configOf(current.1))))
  }

  /** The torch generator `_pregen` seeds: the global one on "mps", a
      generator on the device otherwise. */
  datatype Generator = GlobalGenerator(seed: int) | DeviceGenerator(device: Option<string>, seed: int)

  function PregenGenerator(device: Option<string>, seed: int): (g: Generator)
    ensures g.seed == seed
    ensures g.GlobalGenerator? <==> device == Some("mps")
  {
    if device == Some("mps") then GlobalGenerator(seed) else DeviceGenerator(device, seed)
  }

  /** The number of images `_pregen` lets a request make: one on "mps",
      the requested count otherwise (`int()` of the slider's integer). */
  function ImageCount(device: Option<string>, numImages: int): (n: int)
    ensures device == Some("mps") ==> n == 1
    ensures device != Some("mps") ==> n == numImages
  {
    if device == Some("mps") then 1 else numImages
  }

  // ---------------------------------------------------------------------
  // Request metadata

  /** A value stored in the metadata dictionary. */
  datatype MetaValue =
    | Str(s: string)
    | Int(i: int)
    | Size(height: int, width: int)
    | Real(r: real)

  /** The metadata dictionary, as its (key, value) items in insertion order. */
  type Metadata = seq<(string, MetaValue)>

  function Keys(m: Metadata): (ks: seq<string>)
    ensures |ks| == |m|
    ensures forall k :: 0 <= k < |m| ==> ks[k] == m[k].0
  {
    seq(|m|, k requires 0 <= k < |m| => m[k].0)
  }

  /** `m[key]`: the value of the first item with that key, if any. */
  function Lookup(m: Metadata, key: string): Option<MetaValue>
    decreases |m|
  {
    if |m| == 0 then None
    else if m[0].0 == key then Some(m[0].1)
    else Lookup(m[1..], key)
  }

  /** Looking a key up finds the value of its first occurrence. */
  lemma {:induction false} LookupFirst(m: Metadata, k: nat, key: string)
    requires k < |m| && m[k].0 == key
    requires forall j :: 0 <= j < k ==> m[j].0 != key
    ensures Lookup(m, key) == Some(m[k].1)
    decreases k
  {
    if k > 0 {
      LookupFirst(m[1..], k - 1, key);
    }
  }

  /** A value found under a key is the value of some item with that key. */
  lemma {:induction false} LookupFound(m: Metadata, key: string)
    ensures Lookup(m, key).Some? ==> exists j :: 0 <= j < |m| && m[j] == (key, Lookup(m, key).value)
    decreases |m|
  {
    if |m| > 0 && m[0].0 != key {
      LookupFound(m[1..], key);
      if Lookup(m, key).Some? {
        var j :| 0 <= j < |m[1..]| && m[1..][j] == (key, Lookup(m, key).value);
        assert m[j + 1] == (key, Lookup(m, key).value);
      }
    }
  }

  /** A key no item carries is not found. */
  lemma {:induction false} LookupAbsent(m: Metadata, key: string)
    requires key !in Keys(m)
    ensures Lookup(m, key) == None
    decreases |m|
  {
    if |m| > 0 {
      assert Keys(m[1..]) == Keys(m)[1..];
      LookupAbsent(m[1..], key);
    }
  }

  const Text2ImgKeys: seq<string> :=
    ["prompt", "negative_prompt", "scheduler", "image_size", "num_images", "guidance_scale", "steps", "seed"]

  const Img2ImgKeys: seq<string> :=
    ["prompt", "negative_prompt", "scheduler", "num_images", "guidance_scale", "steps", "seed"]

  /** The metadata `text2img_generate` records. */
  function Text2ImgMetadata(prompt: string, negativePrompt: string, scheduler: string, imageSize: (int, int),
                            numImages: int, guidanceScale: real, steps: int, seed: int): (m: Metadata)
    ensures Keys(m) == Text2ImgKeys
  {
    [("prompt", Str(prompt)), ("negative_prompt", Str(negativePrompt)), ("scheduler", Str(scheduler)),
     ("image_size", Size(imageSize.0, imageSize.1)), ("num_images", Int(numImages)),
     ("guidance_scale", Real(guidanceScale)), ("steps", Int(steps)), ("seed", Int(seed))]
  }

  /** The metadata `img2img_generate` records: the same without the image size. */
  function Img2ImgMetadata(prompt: string, negativePrompt: string, scheduler: string,
                           numImages: int, guidanceScale: real, steps: int, seed: int): (m: Metadata)
    ensures Keys(m) == Img2ImgKeys
  {
    [("prompt", Str(prompt)), ("negative_prompt", Str(negativePrompt)), ("scheduler", Str(scheduler)),
     ("num_images", Int(numImages)), ("guidance_scale", Real(guidanceScale)), ("steps", Int(steps)),
     ("seed", Int(seed))]
  }

  /** The text-to-image metadata records the image count it is given, the
      scheduler name, the seed and the image size. */
  lemma Text2ImgMetadataRecords(prompt: string, negativePrompt: string, scheduler: string, imageSize: (int, int),
                                numImages: int, guidanceScale: real, steps: int, seed: int)
    ensures var m := Text2ImgMetadata(prompt, negativePrompt, scheduler, imageSize, numImages, guidanceScale, steps, seed);
      && Lookup(m, "num_images") == Some(Int(numImages))
      && Lookup(m, "scheduler") == Some(Str(scheduler))
      && Lookup(m, "seed") == Some(Int(seed))
      && Lookup(m, "image_size") == Some(Size(imageSize.0, imageSize.1))
  {
    var m := Text2ImgMetadata(prompt, negativePrompt, scheduler, imageSize, numImages, guidanceScale, steps, seed);
    LookupFirst(m, 2, "scheduler");
    LookupFirst(m, 3, "image_size");
    LookupFirst(m, 4, "num_images");
    LookupFirst(m, 7, "seed");
  }

  /** The image-to-image metadata records the image count it is given, the
      scheduler name and the seed, and has no image size. */
  lemma Img2ImgMetadataRecords(prompt: string, negativePrompt: string, scheduler: string,
                               numImages: int, guidanceScale: real, steps: int, seed: int)
    ensures var m := Img2ImgMetadata(prompt, negativePrompt, scheduler, numImages, guidanceScale, steps, seed);
      && Lookup(m, "num_images") == Some(Int(numImages))
      && Lookup(m, "scheduler") == Some(Str(scheduler))
      && Lookup(m, "seed") == Some(Int(seed))
      && Lookup(m, "image_size") == None
  {
    var m := Img2ImgMetadata(prompt, negativePrompt, scheduler, numImages, guidanceScale, steps, seed);
    LookupFirst(m, 2, "scheduler");
    LookupFirst(m, 3, "num_images");
    LookupFirst(m, 6, "seed");
    LookupAbsent(m, "image_size");
  }

  // ---------------------------------------------------------------------
  // Calls into the external pipelines

  /** The arguments `text2img_generate` passes to the text-to-image pipeline,
      with the scheduler the pipeline holds at that moment. */
  datatype Text2ImgCall = Text2ImgCall(
    prompt: string, negativePrompt: string, width: int, height: int, steps: int,
    guidanceScale: real, numImagesPerPrompt: int, generator: Generator, scheduler: Scheduler)

  /** The arguments `img2img_generate` passes to the image-to-image pipeline. */
  datatype Img2ImgCall = Img2ImgCall(
    prompt: string, image: Utils.Image, strength: real, negativePrompt: string, steps: int,
    guidanceScale: real, numImagesPerPrompt: int, generator: Generator, scheduler: Scheduler)

  /** The scheduler the user interface offers first, ahead of the
      dictionary's own order, when it is compatible. */
  const PreferredScheduler: string := "EulerAncestralDiscreteScheduler"

  /** `list.pop(k)`, as the list it leaves. */
  function Pop(s: seq<string>, k: nat): (r: seq<string>)
    requires k < |s|
    ensures |r| == |s| - 1
    ensures forall j :: 0 <= j < k ==> r[j] == s[j]
    ensures forall j :: k <= j < |r| ==> r[j] == s[j + 1]
  {
    s[..k] + s[k + 1..]
  }

  /** `list.index(x)`: the first position of x. */
  function IndexOf(s: seq<string>, x: string): (k: nat)
    requires x in s
    ensures k < |s| && s[k] == x
    ensures forall j :: 0 <= j < k ==> s[j] != x
    decreases |s|
  {
    if s[0] == x then 0 else 1 + IndexOf(s[1..], x)
  }

  /** The list without any occurrence of the preferred scheduler. */
  function Others(s: seq<string>): seq<string>
    decreases |s|
  {
    if |s| == 0 then []
    else (if s[0] == PreferredScheduler then [] else [s[0]]) + Others(s[1..])
  }

  lemma {:induction false} OthersConcat(a: seq<string>, b: seq<string>)
    ensures Others(a + b) == Others(a) + Others(b)
    decreases |a|
  {
    if |a| == 0 {
      assert a + b == b;
    } else {
      var head := if a[0] == PreferredScheduler then [] else [a[0]];
      assert (a + b)[1..] == a[1..] + b;
      assert Others(a + b) == head + Others(a[1..] + b);
      OthersConcat(a[1..], b);
    }
  }

  /** Moving the name at k to the front keeps every name. */
  lemma MoveToFrontPermutes(s: seq<string>, k: nat)
    requires k < |s|
    ensures multiset([s[k]] + Pop(s, k)) == multiset(s)
  {
    var front, back := s[..k], s[k + 1..];
    assert s == front + [s[k]] + back;
    assert [s[k]] + Pop(s, k) == [s[k]] + front + back;
  }

  /** Moving the preferred scheduler to the front leaves the other names in
      their relative order. */
  lemma MoveToFrontKeepsOrder(s: seq<string>, k: nat)
    requires k < |s| && s[k] == PreferredScheduler
    ensures Others([s[k]] + Pop(s, k)) == Others(s)
  {
    OthersAfterMove(s, k);
    OthersAround(s, k);
  }

  /** After the move, `Others` sees the names before and after k. */
  lemma OthersAfterMove(s: seq<string>, k: nat)
    requires k < |s| && s[k] == PreferredScheduler
    ensures Others([s[k]] + Pop(s, k)) == Others(s[..k]) + Others(s[k + 1..])
  {
    OthersSkipPreferred(Pop(s, k));
    OthersConcat(s[..k], s[k + 1..]);
  }

  /** Before the move, `Others` drops the preferred name at k. */
  lemma OthersAround(s: seq<string>, k: nat)
    requires k < |s| && s[k] == PreferredScheduler
    ensures Others(s) == Others(s[..k]) + Others(s[k + 1..])
  {
    OthersSkipPreferred(s[k + 1..]);
    assert s[k..] == [s[k]] + s[k + 1..];
    assert s == s[..k] + s[k..];
    OthersConcat(s[..k], s[k..]);
  }

  /** A preferred name in front is dropped by `Others`. */
  lemma OthersSkipPreferred(b: seq<string>)
    ensures Others([PreferredScheduler] + b) == Others(b)
  {
    assert ([PreferredScheduler] + b)[1..] == b;
  }

  // ---------------------------------------------------------------------
  // The X2Image object

  class X2Image {
    const device: Option<string>
    const outputPath: Option<string>
    const text2img: Pipeline
    const img2img: Pipeline
    /** The configuration a scheduler reports as its `.config`, as the
        diffusers library computes it; opaque. */
    const configOf: Scheduler -> SchedulerConfig
    /** `compatible_schedulers`, by name. */
    const compatibleSchedulers: map<string, SchedulerClass>
    /** The key order of `compatible_schedulers`. */
    const schedulerNames: seq<string>

    /** The two pipelines are distinct objects, and the name list holds each
        dictionary key exactly once. */
    ghost predicate Valid() {
      && text2img != img2img
      && (forall n :: n in schedulerNames <==> n in compatibleSchedulers)
      && (forall a, b :: 0 <= a < b < |schedulerNames| ==> schedulerNames[a] != schedulerNames[b])
    }

    /** The state `__post_init__` leaves, given the pipelines it built (the
        image-to-image one made from the text-to-image one's components) and
        the text-to-image scheduler's `compatibles`; `configOf` stands for the
        library's answer to `scheduler.config`. */
    constructor (device: Option<string>, outputPath: Option<string>, text2img: Pipeline, img2img: Pipeline,
                 compatibles: seq<SchedulerClass>, configOf: Scheduler -> SchedulerConfig)
      requires text2img != img2img
      ensures Valid()
      ensures this.device == device && this.outputPath == outputPath
      ensures this.text2img == text2img && this.img2img == img2img
      ensures compatibleSchedulers == CompatibleSchedulers(compatibles)
      ensures schedulerNames == SchedulerNames(compatibles)
      ensures this.configOf == configOf
    {
      this.device := device;
      this.outputPath := outputPath;
      this.text2img := text2img;
      this.img2img := img2img;
      compatibleSchedulers := CompatibleSchedulers(compatibles);
      schedulerNames := SchedulerNames(compatibles);
      this.configOf := configOf;
    }

    /** `_set_scheduler`: replaces the named pipeline's scheduler by one of the
        requested class built from the configuration that pipeline's current
        scheduler reports; the other pipeline is untouched; on an error
        nothing changes. */
    method SetScheduler(pipelineName: string, schedulerName: string) returns (r: Outcome<X2ImageError>)
      requires Valid()
      modifies text2img, img2img
      ensures var upd := SchedulerUpdate(compatibleSchedulers, configOf, pipelineName, schedulerName,
                                         old((text2img.scheduler, img2img.scheduler)));
        && (upd.Failure? ==> r == Fail(upd.error) && unchanged(text2img, img2img))
        && (upd.Success? ==> r == Pass && (text2img.scheduler, img2img.scheduler) == upd.value)
    {
      var config: SchedulerConfig;
      if pipelineName == "text2img" {
        config := configOf(text2img.scheduler);
      } else if pipelineName == "img2img" {
        config := configOf(img2img.scheduler);
      } else {
        return Fail(UnsupportedPipeline(pipelineName));
      }
      if schedulerName !in compatibleSchedulers {
        return Fail(UnknownScheduler(schedulerName));
      }
      var scheduler := FromConfig(compatibleSchedulers[schedulerName], config);
      if pipelineName == "text2img" {
        text2img.scheduler := scheduler;
      } else if pipelineName == "img2img" {
        img2img.scheduler := scheduler;
      }
      r := Pass;
    }

    /** `_pregen`: sets the scheduler, then picks the generator and the image
        count (forced to one on "mps"). */
    method Pregen(pipelineName: string, scheduler: string, numImages: int, seed: int)
      returns (r: Result<(Generator, int), X2ImageError>)
      requires Valid()
      modifies text2img, img2img
      ensures var upd := SchedulerUpdate(compatibleSchedulers, configOf, pipelineName, scheduler,
                                         old((text2img.scheduler, img2img.scheduler)));
        && (upd.Failure? ==> r == Failure(upd.error) && unchanged(text2img, img2img))
        && (upd.Success? ==>
              && r == Success((PregenGenerator(device, seed), ImageCount(device, numImages)))
              && (text2img.scheduler, img2img.scheduler) == upd.value)
    {
      var outcome := SetScheduler(pipelineName, scheduler);
      if outcome.Fail? {
        return Failure(outcome.error);
      }
      var generator: Generator;
      var count := numImages;
      if device == Some("mps") {
        generator := GlobalGenerator(seed);
        count := 1;
      } else {
        generator := DeviceGenerator(device, seed);
      }
      r := Success((generator, count));
    }

    /** `_postgen`: serialises the metadata, attaches it to a PNG text chunk
        named after the pipeline, and saves the images. */
    method Postgen(fs: Utils.FileSystem, metadata: Metadata, outputImages: seq<Utils.Image>, pipelineName: string,
                   dumps: Metadata -> string, timestamp: string)
      returns (r: Result<(seq<Utils.Image>, Utils.PngInfo), X2ImageError>)
      modifies fs
      ensures outputPath == Some("") ==> r == Failure(SaveFailed(Utils.FileNotFound("")))
      ensures outputPath != Some("") ==>
        r == Success((outputImages, Utils.AddText(Utils.PngInfo([]), pipelineName, dumps(metadata))))
      ensures fs.files == Utils.FilesAfterSave(old(fs.files), outputImages, pipelineName, dumps(metadata), outputPath, timestamp)
      ensures fs.dirs == Utils.DirsAfterSave(old(fs.dirs), pipelineName, outputPath, timestamp)
    {
      var text := dumps(metadata);
      var info := Utils.AddText(Utils.PngInfo([]), pipelineName, text);
      var saved := Utils.SaveImages(fs, outputImages, pipelineName, text, outputPath, timestamp);
      if saved.Fail? {
        return Failure(SaveFailed(saved.error));
      }
      r := Success((outputImages, info));
    }

    /** `text2img_generate`; `render` is the text-to-image pipeline's
        inference, `dumps` is `json.dumps`, `timestamp` the current time. The
        metadata records the image count after `_pregen`'s clamp. */
    method Text2ImgGenerate(fs: Utils.FileSystem, prompt: string, negativePrompt: string, scheduler: string,
                            imageSize: (int, int), numImages: int, guidanceScale: real, steps: int, seed: int,
                            render: Text2ImgCall -> seq<Utils.Image>, dumps: Metadata -> string, timestamp: string)
      returns (r: Result<(seq<Utils.Image>, Utils.PngInfo), X2ImageError>)
      requires Valid()
      modifies text2img, img2img, fs
      ensures var upd := SchedulerUpdate(compatibleSchedulers, configOf, "text2img", scheduler,
                                         old((text2img.scheduler, img2img.scheduler)));
        && (upd.Failure? ==> r == Failure(upd.error) && unchanged(text2img, img2img, fs))
        && (upd.Success? ==>
              var n := ImageCount(device, numImages);
              var call := Text2ImgCall(prompt, negativePrompt, imageSize.1, imageSize.0, steps, guidanceScale, n,
                                       PregenGenerator(device, seed), upd.value.0);
              var text := dumps(Text2ImgMetadata(prompt, negativePrompt, scheduler, imageSize, n, guidanceScale, steps, seed));
              && (text2img.scheduler, img2img.scheduler) == upd.value
              && (outputPath == Some("") ==> r == Failure(SaveFailed(Utils.FileNotFound(""))))
              && (outputPath != Some("") ==> r == Success((render(call), Utils.AddText(Utils.PngInfo([]), "text2img", text))))
              && fs.files == Utils.FilesAfterSave(old(fs.files), render(call), "text2img", text, outputPath, timestamp)
              && fs.dirs == Utils.DirsAfterSave(old(fs.dirs), "text2img", outputPath, timestamp))
    {
      var pre := Pregen("text2img", scheduler, numImages, seed);
      if pre.Failure? {
        return Failure(pre.error);
      }
      var (generator, count) := pre.value;
      var outputImages := render(Text2ImgCall(prompt, negativePrompt, imageSize.1, imageSize.0, steps,
                                              guidanceScale, count, generator, text2img.scheduler));
      var metadata := Text2ImgMetadata(prompt, negativePrompt, scheduler, imageSize, count, guidanceScale, steps, seed);
      r := Postgen(fs, metadata, outputImages, "text2img", dumps, timestamp);
    }

    /** `img2img_generate`, the image-to-image counterpart. */
    method Img2ImgGenerate(fs: Utils.FileSystem, prompt: string, image: Utils.Image, strength: real,
                           negativePrompt: string, scheduler: string, numImages: int, guidanceScale: real,
                           steps: int, seed: int,
                           render: Img2ImgCall -> seq<Utils.Image>, dumps: Metadata -> string, timestamp: string)
      returns (r: Result<(seq<Utils.Image>, Utils.PngInfo), X2ImageError>)
      requires Valid()
      modifies text2img, img2img, fs
      ensures var upd := SchedulerUpdate(compatibleSchedulers, configOf, "img2img", scheduler,
                                         old((text2img.scheduler, img2img.scheduler)));
        && (upd.Failure? ==> r == Failure(upd.error) && unchanged(text2img, img2img, fs))
        && (upd.Success? ==>
              var n := ImageCount(device, numImages);
              var call := Img2ImgCall(prompt, image, strength, negativePrompt, steps, guidanceScale, n,
                                      PregenGenerator(device, seed), upd.value.1);
              var text := dumps(Img2ImgMetadata(prompt, negativePrompt, scheduler, n, guidanceScale, steps, seed));
              && (text2img.scheduler, img2img.scheduler) == upd.value
              && (outputPath == Some("") ==> r == Failure(SaveFailed(Utils.FileNotFound(""))))
              && (outputPath != Some("") ==> r == Success((render(call), Utils.AddText(Utils.PngInfo([]), "img2img", text))))
              && fs.files == Utils.FilesAfterSave(old(fs.files), render(call), "img2img", text, outputPath, timestamp)
              && fs.dirs == Utils.DirsAfterSave(old(fs.dirs), "img2img", outputPath, timestamp))
    {
      var pre := Pregen("img2img", scheduler, numImages, seed);
      if pre.Failure? {
        return Failure(pre.error);
      }
      var (generator, count) := pre.value;
      var outputImages := render(Img2ImgCall(prompt, image, strength, negativePrompt, steps, guidanceScale,
                                             count, generator, img2img.scheduler));
      var metadata := Img2ImgMetadata(prompt, negativePrompt, scheduler, count, guidanceScale, steps, seed);
      r := Postgen(fs, metadata, outputImages, "img2img", dumps, timestamp);
    }

    /** The scheduler list `app` offers: the dictionary's names with
        "EulerAncestralDiscreteScheduler", when present, popped from its
        place and inserted in front. */
    method AvailableSchedulers() returns (available: seq<string>)
      requires Valid()
      ensures multiset(available) == multiset(schedulerNames)
      ensures Others(available) == Others(schedulerNames)
      ensures PreferredScheduler !in schedulerNames ==> available == schedulerNames
      ensures PreferredScheduler in schedulerNames ==>
        && available[0] == PreferredScheduler
        && PreferredScheduler !in available[1..]
        && available[1..] == Pop(schedulerNames, IndexOf(schedulerNames, PreferredScheduler))
    {
      available := schedulerNames;
      if PreferredScheduler in available {
        var k := IndexOf(available, PreferredScheduler);
        var name := available[k];
        available := Pop(available, k);
        available := [name] + available;
        MoveToFrontPermutes(schedulerNames, k);
        MoveToFrontKeepsOrder(schedulerNames, k);
      }
    }
  }
}
