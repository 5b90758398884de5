/** The query gateway (`services/geminiService.ts`): construction of the
    service, the collapse of every failure of the external call into one
    error, and the normalisation of the grounding citations of a response
    into a list of sources (keep the well-formed ones, then drop later
    entries whose URI was already seen). */
module Gateway {
  import opened Types

  // ---------------------------------------------------------------------
  // The response envelope of the external generate call, as far as the
  // gateway reads it. Every optional link of the access chain
  // `candidates?.[0]?.groundingMetadata?.groundingChunks` is an Option.
  // ---------------------------------------------------------------------

  /** A grounding citation; `web` is absent for non-web citations. */
  datatype GroundingChunk = GroundingChunk(web: Option<Source>)

  datatype GroundingMetadata = GroundingMetadata(groundingChunks: Option<seq<GroundingChunk>>)

  datatype Candidate = Candidate(groundingMetadata: Option<GroundingMetadata>)

  datatype Response = Response(text: string, candidates: Option<seq<Candidate>>)

  /** What the external call did: answered with a response, or threw. */
  datatype CallOutcome = Responded(response: Response) | Threw

  /** The two errors the service raises: "API_KEY environment variable not
      set" and "Failed to get response from AI model.". */
  datatype ServiceError = MissingApiKey | QueryFailed

  /** The credential a client is built with. */
  datatype Client = Client(apiKey: string)

  /** A constructed service: only a non-empty credential gets this far. */
  type Service = c: Client | c.apiKey != "" witness Client("key")

  /** What a successful query returns. */
  datatype QueryResult = QueryResult(text: string, sources: seq<Source>)

  // ---------------------------------------------------------------------
  // Construction and the query call
  // ---------------------------------------------------------------------

  /** The constructor: `apiKey` is the configured credential, `None` when
      unset. An unset or empty credential fails before any query. */
  function NewService(apiKey: Option<string>): (r: Result<Service, ServiceError>)
    ensures r.Success? <==> apiKey.Some? && apiKey.value != ""
    ensures r.Success? ==> r.value.apiKey == apiKey.value && r.value.apiKey != ""
    ensures r.Failure? ==> r.error == MissingApiKey
  {
    if apiKey.None? || apiKey.value == "" then Failure(MissingApiKey)
    else Success(Client(apiKey.value))
  }

  /** `runQuery` on a constructed `service`, whose client makes the external
      call; the outcome of that call is the parameter `outcome`. Any
      throw becomes the one generic error with no partial result; a
      response yields its text and its normalised citations, which are
      well-formed and have pairwise distinct URIs. */
  function RunQuery(service: Service, outcome: CallOutcome): (r: Result<QueryResult, ServiceError>)
    ensures r.Failure? <==> outcome.Threw?
    ensures r.Failure? ==> r == Failure(QueryFailed)
    ensures r.Success? ==> r.value.text == outcome.response.text
    ensures r.Success? ==> r.value.sources == Sources(GroundingChunks(outcome.response))
    ensures r.Success? ==> forall s :: s in r.value.sources ==> s.uri != "" && s.title != ""
    ensures r.Success? ==> UniqueUris(r.value.sources)
  {
    match outcome
    case Threw => Failure(QueryFailed)
    case Responded(response) =>
      var chunks := GroundingChunks(response);
      SourcesCitable(chunks);
      SourcesUnique(chunks);
      Success(QueryResult(response.text, Sources(chunks)))
  }

  /** `candidates?.[0]?.groundingMetadata?.groundingChunks || []`: a
      non-empty list can only come from the first candidate's metadata. */
  function GroundingChunks(resp: Response): (cs: seq<GroundingChunk>)
    ensures cs != [] ==>
      && resp.candidates.Some? && |resp.candidates.value| > 0
      && resp.candidates.value[0].groundingMetadata.Some?
      && resp.candidates.value[0].groundingMetadata.value.groundingChunks == Some(cs)
    ensures && resp.candidates.Some? && |resp.candidates.value| > 0
            && resp.candidates.value[0].groundingMetadata.Some?
            && resp.candidates.value[0].groundingMetadata.value.groundingChunks.Some?
            ==> cs == resp.candidates.value[0].groundingMetadata.value.groundingChunks.value
  {
    match resp.candidates
    case None => []
    case Some(candidates) =>
      if |candidates| == 0 then []
      else
        match candidates[0].groundingMetadata
        case None => []
        case Some(meta) =>
          match meta.groundingChunks
          case None => []
          case Some(chunks) => chunks
  }

  // ---------------------------------------------------------------------
  // Normalisation: map to `web`, keep the citable ones, deduplicate by URI
  // ---------------------------------------------------------------------

  /** `chunks.map(chunk => chunk.web)`. */
  function Webs(chunks: seq<GroundingChunk>): (ws: seq<Option<Source>>)
    ensures |ws| == |chunks|
    ensures forall i :: 0 <= i < |chunks| ==> ws[i] == chunks[i].web
  {
    if chunks == [] then [] else [chunks[0].web] + Webs(chunks[1..])
  }

  /** The validity test of the first filter: present, non-empty URI and title. */
  predicate IsCitable(w: Option<Source>)
  {
    w.Some? && w.value.uri != "" && w.value.title != ""
  }

  /** The first filter: the citable entries, in order. */
  function KeepCitable(ws: seq<Option<Source>>): (r: seq<Source>)
    ensures |r| <= |ws|
    ensures forall s :: s in r <==> Some(s) in ws && IsCitable(Some(s))
  {
    if ws == [] then []
    else if IsCitable(ws[0]) then [ws[0].value] + KeepCitable(ws[1..])
    else KeepCitable(ws[1..])
  }

  /** `Array.prototype.findIndex` on the URI: the first position holding
      `uri`, or -1 when there is none. */
  function FindIndex(ws: seq<Source>, uri: string): (k: int)
    ensures -1 <= k < |ws|
    ensures k == -1 <==> forall i :: 0 <= i < |ws| ==> ws[i].uri != uri
    ensures 0 <= k ==> ws[k].uri == uri && forall i :: 0 <= i < k ==> ws[i].uri != uri
  {
    if ws == [] then -1
    else if ws[0].uri == uri then 0
    else
      var k := FindIndex(ws[1..], uri);
      if k == -1 then -1 else k + 1
  }

  /** The second filter, as written: keep the entry at `index` exactly when
      `index == self.findIndex(w => w.uri === web.uri)`. */
  function Dedup(ws: seq<Source>): seq<Source>
  {
    DedupFrom(ws, 0)
  }

  /** The entries of `ws` from position `i` on that pass the second filter. */
  function DedupFrom(ws: seq<Source>, i: nat): seq<Source>
    requires i <= |ws|
    decreases |ws| - i
  {
    if i == |ws| then []
    else (if FindIndex(ws, ws[i].uri) == i then [ws[i]] else []) + DedupFrom(ws, i + 1)
  }

  /** The valid input entries: the citations after the first filter. */
  function ValidEntries(chunks: seq<GroundingChunk>): (v: seq<Source>)
    ensures |v| <= |chunks|
    ensures forall s :: s in v <==> s.uri != "" && s.title != "" &&
                                    exists i :: 0 <= i < |chunks| && chunks[i].web == Some(s)
  {
    KeepCitable(Webs(chunks))
  }

  /** The `sources` the gateway returns for a list of grounding chunks. */
  function Sources(chunks: seq<GroundingChunk>): seq<Source>
  {
    Dedup(ValidEntries(chunks))
  }

  // ---------------------------------------------------------------------
  // Reference definitions
  // ---------------------------------------------------------------------

  /** The URIs occurring in a list of sources. */
  function Uris(ws: seq<Source>): set<string>
  {
    set i | 0 <= i < |ws| :: ws[i].uri
  }

  /** Position `i` holds the first occurrence of its URI. */
  predicate IsFirstOfUri(ws: seq<Source>, i: nat)
    requires i < |ws|
  {
    forall j :: 0 <= j < i ==> ws[j].uri != ws[i].uri
  }

  /** No two entries share a URI. */
  predicate UniqueUris(ss: seq<Source>)
  {
    forall i, j :: 0 <= i < j < |ss| ==> ss[i].uri != ss[j].uri
  }

  /** `a` is `b` with some entries left out, order kept. */
  predicate IsSubsequence(a: seq<Source>, b: seq<Source>)
    decreases |b|
  {
    if a == [] then true
    else if b == [] then false
    else (a[0] == b[0] && IsSubsequence(a[1..], b[1..])) || IsSubsequence(a, b[1..])
  }

  /** Stable deduplication stated independently of `findIndex`: walk the
      list once, keep an entry when its URI is not in `seen`, and add it. */
  function DedupSeen(ws: seq<Source>, seen: set<string>): seq<Source>
  {
    if ws == [] then []
    else if ws[0].uri in seen then DedupSeen(ws[1..], seen)
    else [ws[0]] + DedupSeen(ws[1..], seen + {ws[0].uri})
  }

  /** A list of sources written back as the grounding chunks it came from. */
  function AsChunks(ss: seq<Source>): seq<GroundingChunk>
  {
    if ss == [] then [] else [GroundingChunk(Some(ss[0]))] + AsChunks(ss[1..])
  }

  // ---------------------------------------------------------------------
  // The filter-with-findIndex dedup is the seen-set dedup
  // ---------------------------------------------------------------------

  lemma UrisSnoc(ws: seq<Source>, i: nat)
    requires i < |ws|
    ensures Uris(ws[..i + 1]) == Uris(ws[..i]) + {ws[i].uri}
  {
    assert ws[..i + 1] == ws[..i] + [ws[i]];
    forall u | u in Uris(ws[..i + 1]) ensures u in Uris(ws[..i]) + {ws[i].uri} {
      var j :| 0 <= j < i + 1 && ws[..i + 1][j].uri == u;
      if j < i { assert ws[..i][j].uri == u; }
    }
    forall u | u in Uris(ws[..i]) ensures u in Uris(ws[..i + 1]) {
      var j :| 0 <= j < i && ws[..i][j].uri == u;
      assert ws[..i + 1][j].uri == u;
    }
    assert ws[..i + 1][i].uri == ws[i].uri;
  }

  /** The entry at `i` passes the findIndex filter exactly when its URI
      does not occur before it. */
  lemma FindIndexIsFirst(ws: seq<Source>, i: nat)
    requires i < |ws|
    ensures FindIndex(ws, ws[i].uri) == i <==> ws[i].uri !in Uris(ws[..i])
  {
    var k := FindIndex(ws, ws[i].uri);
    if ws[i].uri in Uris(ws[..i]) {
      var j :| 0 <= j < i && ws[..i][j].uri == ws[i].uri;
      assert ws[j].uri == ws[i].uri;
    } else {
      forall j | 0 <= j < i ensures ws[j].uri != ws[i].uri {
        assert ws[..i][j].uri == ws[j].uri;
      }
    }
  }

  lemma {:induction false} DedupFromIsDedupSeen(ws: seq<Source>, i: nat)
    requires i <= |ws|
    ensures DedupFrom(ws, i) == DedupSeen(ws[i..], Uris(ws[..i]))
    decreases |ws| - i
  {
    if i == |ws| {
      assert ws[i..] == [];
    } else {
      var w, seen := ws[i], Uris(ws[..i]);
      DedupFromIsDedupSeen(ws, i + 1);
      assert ws[i..][0] == w && ws[i..][1..] == ws[i + 1..];
      UrisSnoc(ws, i);
      FindIndexIsFirst(ws, i);
      if w.uri in seen {
        assert Uris(ws[..i + 1]) == seen;
        calc {
          DedupFrom(ws, i);
          DedupFrom(ws, i + 1);
          DedupSeen(ws[i + 1..], seen);
          DedupSeen(ws[i..], seen);
        }
      } else {
        calc {
          DedupFrom(ws, i);
          [w] + DedupFrom(ws, i + 1);
          [w] + DedupSeen(ws[i + 1..], seen + {w.uri});
          DedupSeen(ws[i..], seen);
        }
      }
    }
  }

  /** The second filter, as written, is stable deduplication by URI. */
  lemma DedupIsDedupSeen(ws: seq<Source>)
    ensures Dedup(ws) == DedupSeen(ws, {})
  {
    DedupFromIsDedupSeen(ws, 0);
    assert ws[0..] == ws;
    assert Uris(ws[..0]) == {};
  }

  // ---------------------------------------------------------------------
  // Properties of the seen-set dedup
  // ---------------------------------------------------------------------

  lemma UrisCons(ws: seq<Source>)
    requires ws != []
    ensures Uris(ws) == {ws[0].uri} + Uris(ws[1..])
  {
    forall u | u in Uris(ws) ensures u in {ws[0].uri} + Uris(ws[1..]) {
      var j :| 0 <= j < |ws| && ws[j].uri == u;
      if j > 0 { assert ws[1..][j - 1].uri == u; }
    }
    forall u | u in Uris(ws[1..]) ensures u in Uris(ws) {
      var j :| 0 <= j < |ws| - 1 && ws[1..][j].uri == u;
      assert ws[j + 1].uri == u;
    }
  }

  /** The kept URIs are exactly the input's URIs not seen before. */
  lemma {:induction false} DedupSeenUris(ws: seq<Source>, seen: set<string>)
    ensures Uris(DedupSeen(ws, seen)) == Uris(ws) - seen
  {
    if ws != [] {
      UrisCons(ws);
      if ws[0].uri in seen {
        DedupSeenUris(ws[1..], seen);
      } else {
        var rest := DedupSeen(ws[1..], seen + {ws[0].uri});
        DedupSeenUris(ws[1..], seen + {ws[0].uri});
        UrisCons([ws[0]] + rest);
        assert ([ws[0]] + rest)[1..] == rest;
      }
    }
  }

  /** No two kept entries share a URI. */
  lemma {:induction false} DedupSeenUnique(ws: seq<Source>, seen: set<string>)
    ensures UniqueUris(DedupSeen(ws, seen))
  {
    if ws != [] {
      if ws[0].uri in seen {
        assert DedupSeen(ws, seen) == DedupSeen(ws[1..], seen);
        DedupSeenUnique(ws[1..], seen);
      } else {
        var rest := DedupSeen(ws[1..], seen + {ws[0].uri});
        DedupSeenUnique(ws[1..], seen + {ws[0].uri});
        DedupSeenUris(ws[1..], seen + {ws[0].uri});
        var r := [ws[0]] + rest;
        forall i, j | 0 <= i < j < |r| ensures r[i].uri != r[j].uri {
          if i == 0 {
            assert r[j] == rest[j - 1];
            assert rest[j - 1].uri in Uris(rest);
          } else {
            assert r[i] == rest[i - 1] && r[j] == rest[j - 1];
          }
        }
      }
    }
  }

  /** The kept entries are a subsequence of the input. */
  lemma {:induction false} DedupSeenSubsequence(ws: seq<Source>, seen: set<string>)
    ensures IsSubsequence(DedupSeen(ws, seen), ws)
  {
    if ws != [] {
      if ws[0].uri in seen {
        DedupSeenSubsequence(ws[1..], seen);
      } else {
        var rest := DedupSeen(ws[1..], seen + {ws[0].uri});
        DedupSeenSubsequence(ws[1..], seen + {ws[0].uri});
        assert ([ws[0]] + rest)[1..] == rest;
      }
    }
  }

  /** The entry kept at position `k` is, with its title, the first
      occurrence of its URI in the input (at the returned index `i`), and
      that URI was not seen before. */
  lemma {:induction false} DedupSeenKeepsFirstAt(ws: seq<Source>, seen: set<string>, k: nat)
    returns (i: nat)
    requires k < |DedupSeen(ws, seen)|
    ensures i < |ws| && ws[i] == DedupSeen(ws, seen)[k] && IsFirstOfUri(ws, i)
    ensures ws[i].uri !in seen
  {
    var seen' := if ws[0].uri in seen then seen else seen + {ws[0].uri};
    if ws[0].uri !in seen && k == 0 {
      i := 0;
    } else {
      var k' := if ws[0].uri in seen then k else k - 1;
      assert DedupSeen(ws, seen)[k] == DedupSeen(ws[1..], seen')[k'];
      var i' := DedupSeenKeepsFirstAt(ws[1..], seen', k');
      i := i' + 1;
      assert ws[i] == ws[1..][i'];
      forall j | 0 <= j < i ensures ws[j].uri != ws[i].uri {
        if j > 0 { assert ws[1..][j - 1] == ws[j]; }
      }
    }
  }

  /** Every first occurrence of a URI not seen before is kept. */
  lemma {:induction false} DedupSeenKeepsEveryFirst(ws: seq<Source>, seen: set<string>)
    ensures forall i :: 0 <= i < |ws| && IsFirstOfUri(ws, i) && ws[i].uri !in seen ==>
      ws[i] in DedupSeen(ws, seen)
  {
    if ws != [] {
      var seen' := if ws[0].uri in seen then seen else seen + {ws[0].uri};
      DedupSeenKeepsEveryFirst(ws[1..], seen');
      forall i | 0 <= i < |ws| && IsFirstOfUri(ws, i) && ws[i].uri !in seen
        ensures ws[i] in DedupSeen(ws, seen)
      {
        if i > 0 {
          assert ws[1..][i - 1] == ws[i];
          assert ws[i].uri != ws[0].uri;
          assert IsFirstOfUri(ws[1..], i - 1) by {
            forall j | 0 <= j < i - 1 ensures ws[1..][j].uri != ws[1..][i - 1].uri {
              assert ws[1..][j] == ws[j + 1];
            }
          }
        }
      }
    }
  }

  /** A list whose URIs are distinct and unseen passes through unchanged. */
  lemma {:induction false} DedupSeenOfUnique(ss: seq<Source>, seen: set<string>)
    requires UniqueUris(ss)
    requires forall i :: 0 <= i < |ss| ==> ss[i].uri !in seen
    ensures DedupSeen(ss, seen) == ss
  {
    if ss != [] {
      DedupSeenOfUnique(ss[1..], seen + {ss[0].uri});
      assert [ss[0]] + ss[1..] == ss;
    }
  }

  // ---------------------------------------------------------------------
  // Properties of the returned sources
  // ---------------------------------------------------------------------

  /** Every returned source is a citation of the input with a non-empty URI
      and a non-empty title; chunks without `web` contribute nothing. */
  lemma SourcesCitable(chunks: seq<GroundingChunk>)
    ensures forall s :: s in Sources(chunks) ==>
      s.uri != "" && s.title != "" && exists i :: 0 <= i < |chunks| && chunks[i].web == Some(s)
  {
    var v := ValidEntries(chunks);
    DedupIsDedupSeen(v);
    DedupSeenSubsequence(v, {});
    forall s | s in Sources(chunks)
      ensures s.uri != "" && s.title != "" && exists i :: 0 <= i < |chunks| && chunks[i].web == Some(s)
    {
      SubsequenceMembers(Sources(chunks), v, s);
      var ws := Webs(chunks);
      var i :| 0 <= i < |ws| && ws[i] == Some(s);
      assert chunks[i].web == Some(s);
    }
  }

  lemma {:induction false} SubsequenceMembers(a: seq<Source>, b: seq<Source>, x: Source)
    requires IsSubsequence(a, b) && x in a
    ensures x in b
    decreases |b|
  {
    if a[0] == b[0] && IsSubsequence(a[1..], b[1..]) {
      if x != a[0] {
        SubsequenceMembers(a[1..], b[1..], x);
      }
    } else {
      SubsequenceMembers(a, b[1..], x);
    }
  }

  /** No two returned sources share a URI. */
  lemma SourcesUnique(chunks: seq<GroundingChunk>)
    ensures UniqueUris(Sources(chunks))
  {
    DedupIsDedupSeen(ValidEntries(chunks));
    DedupSeenUnique(ValidEntries(chunks), {});
  }

  /** The returned sources are the valid entries with some left out, in
      their original relative order. */
  lemma SourcesOrdered(chunks: seq<GroundingChunk>)
    ensures IsSubsequence(Sources(chunks), ValidEntries(chunks))
  {
    DedupIsDedupSeen(ValidEntries(chunks));
    DedupSeenSubsequence(ValidEntries(chunks), {});
  }

  /** For each URI of a valid entry, the output holds exactly the first
      valid entry with that URI, title included: every returned source is
      such a first entry, every such first entry is returned, and the URIs
      are distinct. */
  lemma SourcesFirstOccurrence(chunks: seq<GroundingChunk>)
    ensures var v, r := ValidEntries(chunks), Sources(chunks);
      && (forall k :: 0 <= k < |r| ==> exists i :: 0 <= i < |v| && v[i] == r[k] && IsFirstOfUri(v, i))
      && (forall i :: 0 <= i < |v| && IsFirstOfUri(v, i) ==> v[i] in r)
  {
    var v := ValidEntries(chunks);
    var r := Sources(chunks);
    DedupIsDedupSeen(v);
    forall k | 0 <= k < |r| ensures exists i :: 0 <= i < |v| && v[i] == r[k] && IsFirstOfUri(v, i) {
      var i := DedupSeenKeepsFirstAt(v, {}, k);
    }
    DedupSeenKeepsEveryFirst(v, {});
  }

  /** Completeness: the returned URIs are exactly the URIs of the valid entries. */
  lemma SourcesComplete(chunks: seq<GroundingChunk>)
    ensures Uris(Sources(chunks)) == Uris(ValidEntries(chunks))
  {
    DedupIsDedupSeen(ValidEntries(chunks));
    DedupSeenUris(ValidEntries(chunks), {});
  }

  /** A response without a first candidate, metadata or chunk list yields
      no sources. */
  lemma NoChunksNoSources(resp: Response)
    requires || resp.candidates.None?
             || |resp.candidates.value| == 0
             || resp.candidates.value[0].groundingMetadata.None?
             || resp.candidates.value[0].groundingMetadata.value.groundingChunks.None?
    ensures GroundingChunks(resp) == []
    ensures Sources(GroundingChunks(resp)) == []
  {
  }

  lemma WebsAppend(a: seq<GroundingChunk>, b: seq<GroundingChunk>)
    ensures Webs(a + b) == Webs(a) + Webs(b)
  {
    var l, r := Webs(a + b), Webs(a) + Webs(b);
    assert |l| == |r|;
    forall i | 0 <= i < |l| ensures l[i] == r[i] {
      if i < |a| { assert (a + b)[i] == a[i]; } else { assert (a + b)[i] == b[i - |a|]; }
    }
  }

  /** The first filter distributes over concatenation. */
  lemma {:induction false} KeepCitableAppend(a: seq<Option<Source>>, b: seq<Option<Source>>)
    ensures KeepCitable(a + b) == KeepCitable(a) + KeepCitable(b)
  {
    if a != [] {
      KeepCitableAppend(a[1..], b);
      assert (a + b)[1..] == a[1..] + b;
    } else {
      assert a + b == b;
    }
  }

  /** The first filter on one entry: kept, unwrapped, iff it is citable.
      With KeepCitableAppend this fixes the filter on every list: order and
      repeated entries are kept. */
  lemma KeepCitableOne(w: Option<Source>)
    ensures KeepCitable([w]) == if IsCitable(w) then [w.value] else []
  {
  }

  /** Deduplication runs after the validity filter: an entry that fails
      it, wherever it stands, changes nothing, so an earlier invalid entry
      never suppresses a later valid one with the same URI. */
  lemma InvalidEntryIgnored(a: seq<GroundingChunk>, c: GroundingChunk, b: seq<GroundingChunk>)
    requires !IsCitable(c.web)
    ensures Sources(a + [c] + b) == Sources(a + b)
  {
    var wa, wc, wb := Webs(a), Webs([c]), Webs(b);
    assert wc == [c.web];
    assert KeepCitable(wc) == [];
    WebsAppend(a + [c], b);
    WebsAppend(a, [c]);
    WebsAppend(a, b);
    assert Webs(a + [c] + b) == (wa + wc) + wb;
    KeepCitableAppend(wa + wc, wb);
    KeepCitableAppend(wa, wc);
    KeepCitableAppend(wa, wb);
    assert ValidEntries(a + [c] + b) == ValidEntries(a + b);
  }

  lemma {:induction false} ValidEntriesOfCitable(ss: seq<Source>)
    requires forall s :: s in ss ==> s.uri != "" && s.title != ""
    ensures ValidEntries(AsChunks(ss)) == ss
  {
    if ss != [] {
      ValidEntriesOfCitable(ss[1..]);
      assert AsChunks(ss)[1..] == AsChunks(ss[1..]);
      assert [ss[0]] + ss[1..] == ss;
    }
  }

  /** Normalising an already-normalised list returns it unchanged. */
  lemma SourcesIdempotent(chunks: seq<GroundingChunk>)
    ensures Sources(AsChunks(Sources(chunks))) == Sources(chunks)
  {
    var r := Sources(chunks);
    SourcesCitable(chunks);
    SourcesUnique(chunks);
    ValidEntriesOfCitable(r);
    DedupIsDedupSeen(r);
    DedupSeenOfUnique(r, {});
  }
}
