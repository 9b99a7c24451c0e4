/** The router `Streams` (lib/handlers/streams.js): a map from each
    KinesisStream to its set of compiled file patterns, and a cache from
    file name to the set of streams its lines go to. Patterns are kept by
    their source text; compiling and testing them is the RegexEngine's. */
module Routing {
  import opened Wrappers
  import opened PartitionKeys
  import opened KinesisStreams

  /** `new RegExp(pattern)` (which throws exactly when `compiles` is false)
      and `regexp.test(file)`, taken as given. No flags are passed, so
      `test` keeps no state between calls. */
  datatype RegexEngine = RegexEngine(compiles: string -> bool, test: (string, string) -> bool)

  /** One element of `options.streams`. */
  datatype StreamDefinition = StreamDefinition(
    streamName: string,
    partitionKey: Option<string>,
    partitionKeyProperty: Option<string>,
    maxRecords: Option<int>,
    maxBytes: Option<int>,
    msFlushRate: Option<int>,
    maxRetries: Option<int>,
    files: seq<string>)

  /** The options object built at lib/handlers/streams.js:33-41. */
  function StreamOptions(def: StreamDefinition): (opts: Options)
    // every setting but maxRecords is passed through as configured
    ensures opts.maxRecords.None?
    ensures opts.maxBytes == def.maxBytes && opts.maxRetries == def.maxRetries && opts.msFlushRate == def.msFlushRate
    ensures opts.partitionKey == def.partitionKey && opts.partitionKeyProperty == def.partitionKeyProperty
    ensures opts.streamName == def.streamName
  {
    Options(None, def.maxBytes, def.maxRetries, def.msFlushRate,
            def.partitionKey, def.partitionKeyProperty, def.streamName)
  }

  /** `maxRecords` is not forwarded: however a stream is configured, its
      KinesisStream falls back to 500 records per batch. */
  lemma MaxRecordsNotForwarded(def: StreamDefinition)
    ensures StreamOptions(def).maxRecords.GetOr(DefaultMaxRecords) == 500
    ensures def.maxRecords.Some? ==> StreamOptions(def).maxRecords != def.maxRecords
  {
  }

  /** The settings of the stream built from `def`. */
  predicate Configured(s: KinesisStream, def: StreamDefinition)
  {
    && s.maxRecords == DefaultMaxRecords
    && s.maxBytes == def.maxBytes.GetOr(DefaultMaxBytes)
    && s.maxRetries == def.maxRetries.GetOr(DefaultMaxRetries)
    && s.msFlushRate == def.msFlushRate.GetOr(DefaultFlushRate)
    && s.keys == KeyConfig(def.partitionKey, def.partitionKeyProperty)
    && s.streamName == def.streamName
  }

  /** The stream built from `def`, configured and not yet used. */
  ghost predicate Built(s: KinesisStream, def: StreamDefinition, codec: JsonCodec)
    reads s
  {
    Configured(s, def) && s.codec == codec && Unused(s)
  }

  function Members(xs: seq<KinesisStream>): set<KinesisStream>
  {
    set x | x in xs
  }

  lemma MembersAppend(xs: seq<KinesisStream>, x: KinesisStream)
    ensures Members(xs + [x]) == Members(xs) + {x}
  {
  }

  /** The streams with at least one pattern that matches `file`. */
  function Routes(streams: map<KinesisStream, set<string>>, test: (string, string) -> bool, file: string): set<KinesisStream>
  {
    set s | s in streams && exists p :: p in streams[s] && test(p, file)
  }

  /** The set of the elements of a sequence, as a JavaScript Set built by
      adding them one by one. */
  function Elements(xs: seq<string>): set<string>
  {
    if xs == [] then {} else Elements(xs[..|xs| - 1]) + {xs[|xs| - 1]}
  }

  /** The set holds exactly the sequence's elements, duplicates collapsed. */
  lemma {:induction false} ElementsMembers(xs: seq<string>)
    ensures forall x :: x in Elements(xs) <==> x in xs
  {
    if xs != [] {
      var init := xs[..|xs| - 1];
      ElementsMembers(init);
      assert xs == init + [xs[|xs| - 1]];
    }
  }

  lemma ElementsPrefix(xs: seq<string>, i: nat)
    requires i <= |xs|
    ensures i == 0 ==> Elements(xs[..i]) == {}
    ensures 0 < i ==> Elements(xs[..i]) == Elements(xs[..i - 1]) + {xs[i - 1]}
  {
    if 0 < i {
      assert xs[..i][..i - 1] == xs[..i - 1];
    }
  }

  /** How many leading patterns compile: `addStreamPatterns` adds these and
      then, if one is left, throws on it. */
  function CompilingPrefix(patterns: seq<string>, compiles: string -> bool): (n: nat)
    ensures n <= |patterns|
    ensures forall i :: 0 <= i < n ==> compiles(patterns[i])
    ensures n < |patterns| ==> !compiles(patterns[n])
  {
    if patterns == [] || !compiles(patterns[0]) then 0
    else 1 + CompilingPrefix(patterns[1..], compiles)
  }

  /** Registering one more stream keeps the earlier registrations. */
  lemma RegisterStep(created: seq<KinesisStream>, defs: seq<StreamDefinition>,
                     before: map<KinesisStream, set<string>>, stream: KinesisStream)
    requires |created| < |defs|
    requires forall j :: 0 <= j < |created| ==>
      created[j] in before && before[created[j]] == Elements(defs[j].files) && created[j] != stream
    ensures var after := before[stream := Elements(defs[|created|].files)];
      forall j :: 0 <= j < |created| + 1 ==>
        (created + [stream])[j] in after && after[(created + [stream])[j]] == Elements(defs[j].files)
  {
  }

  /** One more definition whose patterns all compile extends the compiling prefix. */
  lemma CompileStep(defs: seq<StreamDefinition>, i: nat, compiles: string -> bool)
    requires i < |defs| && AllCompile(defs[i].files, compiles)
    requires forall j :: 0 <= j < i ==> AllCompile(defs[j].files, compiles)
    ensures forall j :: 0 <= j < i + 1 ==> AllCompile(defs[j].files, compiles)
  {
  }

  /** Every pattern of the list compiles. */
  predicate AllCompile(patterns: seq<string>, compiles: string -> bool)
  {
    forall j :: 0 <= j < |patterns| ==> compiles(patterns[j])
  }

  /** The first pattern that fails to compile is at the end of the compiling prefix. */
  lemma CompilingPrefixAt(patterns: seq<string>, compiles: string -> bool, i: nat)
    requires i <= |patterns|
    requires forall j :: 0 <= j < i ==> compiles(patterns[j])
    requires i < |patterns| ==> !compiles(patterns[i])
    ensures CompilingPrefix(patterns, compiles) == i
  {
  }

  /** The nested loops at lib/handlers/streams.js:75-82. */
  method MatchRoutes(streams: map<KinesisStream, set<string>>, test: (string, string) -> bool, file: string)
    returns (routes: set<KinesisStream>)
    ensures routes == Routes(streams, test, file)
  {
    routes := {};
    var pending := streams.Keys;
    while pending != {}
      invariant pending <= streams.Keys
      invariant forall s :: s in routes <==>
        s in streams && s !in pending && exists p :: p in streams[s] && test(p, file)
      decreases pending
    {
      var stream :| stream in pending;
      pending := pending - {stream};
      var regexps := streams[stream];
      while regexps != {}
        invariant regexps <= streams[stream]
        invariant forall s :: s in routes <==>
          (s in streams && s !in pending && s != stream && exists p :: p in streams[s] && test(p, file)) ||
          (s == stream && exists p :: p in streams[stream] - regexps && test(p, file))
        decreases regexps
      {
        var regexp :| regexp in regexps;
        if test(regexp, file) {
          routes := routes + {stream};
        }
        regexps := regexps - {regexp};
      }
    }
  }

  class Streams {
    const engine: RegexEngine
    var streams: map<KinesisStream, set<string>>
    /** Never invalidated: an entry, once written, stays. */
    var cache: map<string, set<KinesisStream>>

    /** lib/handlers/streams.js:6-8. */
    constructor (engine: RegexEngine)
      ensures this.engine == engine && streams == map[] && cache == map[]
    {
      this.engine := engine;
      streams := map[];
      cache := map[];
    }

    /** lib/handlers/streams.js:31-45: one KinesisStream per definition,
        registered with that definition's file patterns, into the maps the
        constructor has just created empty. `ok` is false when
        a pattern does not compile; the SyntaxError then leaves the
        constructor, with the streams in `created` registered. */
    method AddConfiguredStreams(defs: seq<StreamDefinition>, codec: JsonCodec)
      returns (ok: bool, ghost created: seq<KinesisStream>)
      requires streams == map[]
      modifies this`streams
      ensures |created| <= |defs| && (ok ==> |created| == |defs|)
      // it succeeds exactly when every pattern of every definition compiles,
      // and otherwise stops at the first definition with a bad pattern
      ensures ok <==> forall i :: 0 <= i < |defs| ==> AllCompile(defs[i].files, engine.compiles)
      ensures !ok ==> 0 < |created| && !AllCompile(defs[|created| - 1].files, engine.compiles)
      ensures !ok ==> forall i :: 0 <= i < |created| - 1 ==> AllCompile(defs[i].files, engine.compiles)
      ensures forall i :: 0 <= i < |created| ==> fresh(created[i]) && Built(created[i], defs[i], codec)
      ensures streams.Keys == Members(created)
      ensures ok ==> forall i :: 0 <= i < |created| ==> streams[created[i]] == Elements(defs[i].files)
    {
      created := [];
      ok := true;
      var i := 0;
      while i < |defs|
        invariant 0 <= i <= |defs| && |created| == i && ok
        invariant forall j :: 0 <= j < i ==> fresh(created[j]) && Built(created[j], defs[j], codec)
        invariant streams.Keys == Members(created)
        invariant forall j :: 0 <= j < i ==> streams[created[j]] == Elements(defs[j].files)
        invariant forall j :: 0 <= j < i ==> AllCompile(defs[j].files, engine.compiles)
      {
        var stream;
        ok, stream := RegisterNext(defs, i, codec, created);
        created := created + [stream];
        if !ok {
          break;
        }
        CompileStep(defs, i, engine.compiles);
        i := i + 1;
      }
    }

    /** The next definition's stream, registered after the streams `created`
        from the definitions before it. */
    method RegisterNext(defs: seq<StreamDefinition>, i: nat, codec: JsonCodec, ghost created: seq<KinesisStream>)
      returns (ok: bool, stream: KinesisStream)
      requires i == |created| < |defs|
      requires forall j :: 0 <= j < |created| ==> Built(created[j], defs[j], codec)
      requires streams.Keys == Members(created)
      requires forall j :: 0 <= j < |created| ==> streams[created[j]] == Elements(defs[j].files)
      modifies this`streams
      ensures fresh(stream) && Built(stream, defs[|created|], codec)
      ensures forall j :: 0 <= j < |created| ==> Built(created[j], defs[j], codec)
      ensures ok <==> AllCompile(defs[|created|].files, engine.compiles)
      ensures streams.Keys == Members(created + [stream])
      ensures ok ==> forall j :: 0 <= j < |created| + 1 ==>
        streams[(created + [stream])[j]] == Elements(defs[j].files)
    {
      ghost var before := streams;
      ok, stream := AddConfiguredStream(defs[i], codec);
      // the earlier streams were allocated before this one
      assert forall j :: 0 <= j < |created| ==> created[j] != stream;
      MembersAppend(created, stream);
      if ok {
        RegisterStep(created, defs, before, stream);
      }
    }

    /** One iteration of lib/handlers/streams.js:32-44. */
    method AddConfiguredStream(def: StreamDefinition, codec: JsonCodec) returns (ok: bool, stream: KinesisStream)
      modifies this`streams
      ensures fresh(stream) && Built(stream, def, codec)
      ensures ok <==> AllCompile(def.files, engine.compiles)
      ensures ok ==> streams == old(streams)[stream := Elements(def.files)]
      ensures !ok ==> streams.Keys == old(streams).Keys + {stream}
    {
      stream := new KinesisStream(StreamOptions(def), codec);
      ok := AddStreamPatterns(stream, def.files);
      assert {} + Elements(def.files) == Elements(def.files);
      if ok {
        assert def.files[..CompilingPrefix(def.files, engine.compiles)] == def.files;
      }
    }

    /** lib/handlers/streams.js:48-52: `stop` every registered stream once. */
    method Destroy()
      modifies streams.Keys`timerActive, streams.Keys`stopCalls
      ensures forall s :: s in streams ==> !s.timerActive && s.stopCalls == old(s.stopCalls) + 1
      // nothing is flushed or discarded: every buffer stays as it was
      ensures forall s :: s in streams ==> s.buffer == old(s.buffer) && s.sent == old(s.sent)
    {
      var pending := GetStreams();
      while pending != {}
        invariant pending <= streams.Keys
        invariant forall s :: s in streams && s !in pending ==> !s.timerActive && s.stopCalls == old(s.stopCalls) + 1
        invariant forall s :: s in pending ==> s.stopCalls == old(s.stopCalls)
        decreases pending
      {
        var stream :| stream in pending;
        stream.Stop();
        pending := pending - {stream};
      }
    }

    /** lib/handlers/streams.js:54-63. Adds the patterns to the stream's set,
        creating the set on first use; stops, with `ok` false, at the first
        pattern that does not compile (there `new RegExp` throws). */
    method AddStreamPatterns(stream: KinesisStream, patterns: seq<string>) returns (ok: bool)
      modifies this`streams
      ensures var before := if stream in old(streams) then old(streams)[stream] else {};
        var n := CompilingPrefix(patterns, engine.compiles);
        streams == old(streams)[stream := before + Elements(patterns[..n])] &&
        (ok <==> n == |patterns|)
    {
      var regexps := if stream in streams then streams[stream] else {};
      ghost var before := regexps;
      ElementsPrefix(patterns, 0);
      ok := true;
      var i := 0;
      while i < |patterns|
        invariant 0 <= i <= |patterns|
        invariant forall j :: 0 <= j < i ==> engine.compiles(patterns[j])
        invariant regexps == before + Elements(patterns[..i])
        invariant ok && streams == old(streams)
      {
        if !engine.compiles(patterns[i]) {
          ok := false;
          break;
        }
        ElementsPrefix(patterns, i + 1);
        regexps := regexps + {patterns[i]};
        i := i + 1;
      }
      CompilingPrefixAt(patterns, engine.compiles, i);
      // the set holds every pattern added before the one that threw
      streams := streams[stream := regexps];
    }

    /** lib/handlers/streams.js:65-67. */
    method GetStreams() returns (r: set<KinesisStream>)
      ensures r == streams.Keys
    {
      r := streams.Keys;
    }

    /** lib/handlers/streams.js:69-86. A cached answer is returned as it is,
        whether empty or not, and however the patterns changed since. */
    method GetRoutes(file: string) returns (routes: set<KinesisStream>)
      modifies this`cache
      ensures file in old(cache) ==> routes == old(cache)[file] && cache == old(cache)
      ensures file !in old(cache) ==> routes == Routes(streams, engine.test, file)
      ensures cache == old(cache)[file := routes]
    {
      if file in cache {
        return cache[file];
      }
      routes := MatchRoutes(streams, engine.test, file);
      cache := cache[file := routes];
    }
  }

  /** Asking twice for the same file gives the same set, even when patterns
      are added between the two calls: the second answer comes from the cache. */
  method RoutesAreStable(router: Streams, file: string, stream: KinesisStream, patterns: seq<string>)
    returns (first: set<KinesisStream>, second: set<KinesisStream>)
    modifies router`streams, router`cache
    ensures second == first
    ensures file !in old(router.cache) ==> first == Routes(old(router.streams), router.engine.test, file)
  {
    first := router.GetRoutes(file);
    var _ := router.AddStreamPatterns(stream, patterns);
    second := router.GetRoutes(file);
  }
}
