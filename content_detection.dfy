/**
 * service/content_detection_service.py: the content-safety gate.
 *
 * Empty text is answered with an all-clear response at once.  Otherwise a
 * keyword prefilter runs the category patterns over the text; a hit is
 * answered from the prefilter alone, and only a miss is sent to the external
 * moderation classifier, whose first result is returned unchanged.
 *
 * Regular-expression search is the uninterpreted `search(pattern, text)`
 * (every pattern is compiled case-insensitively), and the classifier is the
 * uninterpreted `moderate(text)`.
 */
module ContentDetection {
  import opened Wrappers

  /** The source text of a case-insensitive regular expression. */
  type Pattern = string

  /** The category names of `CATEGORY_PATTERNS`, in declaration order. */
  const Taxonomy: seq<string> := [
    "harassment", "harassment/threatening", "hate", "hate/threatening",
    "illicit", "illicit/violent", "self-harm", "self-harm/intent",
    "self-harm/instructions", "sexual", "sexual/minors", "violence",
    "violence/graphic"]

  /** The values of `CATEGORY_PATTERNS`: `CategoryPatterns[i]` are the patterns of `Taxonomy[i]`. */
  const CategoryPatterns: seq<seq<Pattern>> := [
    [@"\b(stupid|idiot|dumb|moron)\b", @"\byou suck\b"],
    [@"\bkill you\b", @"\bI’ll (beat|smash) you\b"],
    [@"\b(nigg[ae]r|faggot|kikes)\b", @"\bkill all (women|blacks|jews)\b"],
    [@"\b(exterminate|annihilat)e ((women|blacks|jews))\b"],
    [@"\bhow to shoplift\b", @"\bbuild a bomb\b"],
    [@"\bwhere to get a gun\b", @"\bkill for hire\b"],
    [@"\b(I want to die|cut myself|starve myself)\b"],
    [@"\bI am going to kill myself\b"],
    [@"\bhow to kill myself\b", @"\bways to cut yourself\b"],
    [@"\bsexual act\b", @"\bexplicit sex\b"],
    [@"\bunder 18\b.*\bsex\b"],
    [@"\b(murder|assault|rape)\b"],
    [@"\b(gore|blood spurt|disembowel)\b"]
  ]

  predicate NoDuplicates(s: seq<string>)
  {
    forall i, j :: 0 <= i < j < |s| ==> s[i] != s[j]
  }

  /** Thirteen categories, none listed twice, each with at least one pattern. */
  lemma TaxonomyDistinct()
    ensures |Taxonomy| == |CategoryPatterns| == 13 && NoDuplicates(Taxonomy)
    ensures forall i :: 0 <= i < |CategoryPatterns| ==> CategoryPatterns[i] != []
  {
  }

  /** The classifier's verdict (`openai.types.Moderation`), keyed by category name. */
  datatype Moderation = Moderation(
    flagged: bool,
    categories: map<string, bool>,
    categoryScores: map<string, real>,
    appliedInputTypes: map<string, seq<string>>)

  /** The two things outside the model: pattern search and the external classifier. */
  datatype ContentDetectionService = ContentDetectionService(
    search: (Pattern, string) -> bool,
    moderate: string -> Moderation)

  // ---------------------------------------------------------------------
  // The keyword prefilter

  predicate MatchesAny(search: (Pattern, string) -> bool, patterns: seq<Pattern>, content: string)
  {
    exists j | 0 <= j < |patterns| :: search(patterns[j], content)
  }

  /** Row `i` of the table has a pattern that finds something in `content`. */
  predicate RowMatches(search: (Pattern, string) -> bool, content: string, i: nat)
    requires i < |CategoryPatterns|
  {
    MatchesAny(search, CategoryPatterns[i], content)
  }

  /** The categories among the first `n` rows with at least one matching pattern. */
  function MatchedUpTo(search: (Pattern, string) -> bool, content: string, n: nat): (r: set<string>)
    requires n <= |CategoryPatterns|
    ensures forall k :: k in r <==> exists i :: 0 <= i < n && Taxonomy[i] == k && RowMatches(search, content, i)
  {
    if n == 0 then {}
    else MatchedUpTo(search, content, n - 1)
         + (if RowMatches(search, content, n - 1) then {Taxonomy[n - 1]} else {})
  }

  /** What `_detect_by_keywords` finds: every category with a matching pattern. */
  function KeywordMatches(search: (Pattern, string) -> bool, content: string): (r: set<string>)
    ensures r <= set k | k in Taxonomy
  {
    MatchedUpTo(search, content, |CategoryPatterns|)
  }

  /** Keyword detection only ever reports categories of the taxonomy, exactly those that match. */
  lemma KeywordMatchesAreMatchingCategories(search: (Pattern, string) -> bool, content: string, k: string)
    ensures k in KeywordMatches(search, content)
        <==> exists i :: 0 <= i < |Taxonomy| && Taxonomy[i] == k && RowMatches(search, content, i)
  {
  }

  /**
   * `_detect_by_keywords`: for each category, try its patterns in order and
   * stop at the first hit.
   */
  method DetectByKeywords(search: (Pattern, string) -> bool, content: string) returns (detected: set<string>)
    ensures detected == KeywordMatches(search, content)
  {
    detected := {};
    var i := 0;
    while i < |CategoryPatterns|
      invariant 0 <= i <= |CategoryPatterns|
      invariant detected == MatchedUpTo(search, content, i)
    {
      var category := Taxonomy[i];
      var patterns := CategoryPatterns[i];
      var j := 0;
      while j < |patterns|
        invariant 0 <= j <= |patterns|
        invariant detected == MatchedUpTo(search, content, i)
        invariant forall q :: 0 <= q < j ==> !search(patterns[q], content)
      {
        if search(patterns[j], content) {
          detected := detected + {category};
          break;
        }
        j := j + 1;
      }
      i := i + 1;
    }
  }

  // ---------------------------------------------------------------------
  // Responses

  /**
   * `_build_moderation_response_from_detected_types`: every taxonomy category
   * is present; a detected one is true, scores 1.0 and applies to text input.
   */
  function BuildModerationResponse(detected: set<string>): (m: Moderation)
    ensures m.flagged <==> detected != {}
    ensures m.categories.Keys == (set k | k in Taxonomy)
    ensures m.categoryScores.Keys == m.categories.Keys && m.appliedInputTypes.Keys == m.categories.Keys
    ensures forall k :: k in m.categories ==>
      && (m.categories[k] <==> k in detected)
      && m.categoryScores[k] == (if k in detected then 1.0 else 0.0)
      && m.appliedInputTypes[k] == (if k in detected then ["text"] else [])
  {
    var detectedMap := map k | k in Taxonomy :: k in detected;
    Moderation(
      detected != {},
      detectedMap,
      map k | k in detectedMap :: if detectedMap[k] then 1.0 else 0.0,
      map k | k in detectedMap :: if detectedMap[k] then ["text"] else [])
  }

  /** The keys in `keys` whose category is marked true, in `keys` order. */
  function FlaggedAmong(keys: seq<string>, categories: map<string, bool>): (r: seq<string>)
    ensures forall k :: k in r <==> k in keys && k in categories && categories[k]
    ensures |r| <= |keys|
  {
    if keys == [] then []
    else
      (if keys[0] in categories && categories[keys[0]] then [keys[0]] else [])
      + FlaggedAmong(keys[1..], categories)
  }

  /** The categories a response marks true, in taxonomy order. */
  function FlaggedCategories(m: Moderation): seq<string>
  {
    FlaggedAmong(Taxonomy, m.categories)
  }

  /**
   * A built response lists exactly the detected categories as flagged, and it
   * is flagged iff it lists any.
   */
  lemma BuiltResponseFlagsDetected(detected: set<string>)
    requires detected <= set k | k in Taxonomy
    ensures forall k :: k in FlaggedCategories(BuildModerationResponse(detected)) <==> k in detected
    ensures BuildModerationResponse(detected).flagged <==> FlaggedCategories(BuildModerationResponse(detected)) != []
  {
    var flagged := FlaggedCategories(BuildModerationResponse(detected));
    if detected != {} {
      var k :| k in detected;
      assert k in flagged;
    }
    if flagged != [] {
      assert flagged[0] in detected;
    }
  }

  // ---------------------------------------------------------------------
  // The gate

  /** The collaborator calls `detect_content` makes. */
  datatype GateEvent = KeywordScan(text: string) | ExternalModeration(text: string)

  /** What `detect_content` answers for `content`. */
  function Detection(service: ContentDetectionService, content: string): (m: Moderation)
    ensures content == "" ==> !m.flagged && forall k :: k in m.categories ==> !m.categories[k]
    ensures content != "" && KeywordMatches(service.search, content) != {} ==>
      m.flagged && forall k :: k in FlaggedCategories(m) <==> k in KeywordMatches(service.search, content)
  {
    if content == "" then BuildModerationResponse({})
    else
      var detected := KeywordMatches(service.search, content);
      if detected != {} then
        BuiltResponseFlagsDetected(detected);
        BuildModerationResponse(detected)
      else service.moderate(content)
  }

  /**
   * `detect_content`.  `calls` records the prefilter and classifier calls:
   * none for empty text, and the classifier only after a prefilter miss.
   */
  method DetectContent(service: ContentDetectionService, content: string)
    returns (m: Moderation, ghost calls: seq<GateEvent>)
    ensures m == Detection(service, content)
    ensures content == "" ==> m == BuildModerationResponse({}) && calls == []
    ensures content != "" && KeywordMatches(service.search, content) != {} ==>
      m == BuildModerationResponse(KeywordMatches(service.search, content)) && calls == [KeywordScan(content)]
    ensures content != "" && KeywordMatches(service.search, content) == {} ==>
      m == service.moderate(content) && calls == [KeywordScan(content), ExternalModeration(content)]
    ensures forall text :: ExternalModeration(text) in calls <==>
      text == content && content != "" && KeywordMatches(service.search, content) == {}
  {
    if content == "" {
      return BuildModerationResponse({}), [];
    }
    var detected := DetectByKeywords(service.search, content);
    calls := [KeywordScan(content)];
    if detected != {} {
      return BuildModerationResponse(detected), calls;
    }
    m := service.moderate(content);
    calls := calls + [ExternalModeration(content)];
  }
}
