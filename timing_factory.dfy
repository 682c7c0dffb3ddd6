/**
 * model/timing_policy_factory.py: the registry that maps a timing-policy kind
 * to the one shared policy object of that kind.
 *
 * The kind arrives either as the enumeration or as its string value; an
 * unknown string and a kind with no registered policy are both errors.  The
 * registry is a parameter, so the lookup is stated for any policy type `P`;
 * `PolicyTypeToPolicy` builds the registry the source declares around its
 * module-level singleton.
 */
module TimingFactory {
  import opened Wrappers
  import opened Dto
  import opened Timing

  /** `policy_type: TimingPolicyType | str`. */
  datatype PolicyTypeArg = EnumArg(kind: TimingPolicyType) | StringArg(name: string)

  /** The two `ValueError`s the lookup raises. */
  datatype FactoryError =
    | NotAPolicyType(value: string)             // `TimingPolicyType(policy_type)` rejects the string
    | NoPolicyRegistered(kind: TimingPolicyType)  // the registry has no entry for the kind

  /** The enumeration has a single member. */
  lemma OnlyKind(t: TimingPolicyType)
    ensures t == ThompsonSampling
  {
  }

  /** The enumeration's string value. */
  function PolicyTypeValue(t: TimingPolicyType): string
  {
    match t
    case ThompsonSampling => "thompson_sampling"
  }

  /** `TimingPolicyType(s)`: the member whose value is `s`, if there is one. */
  function ParsePolicyType(s: string): (r: Result<TimingPolicyType, FactoryError>)
    ensures r.Success? ==> PolicyTypeValue(r.value) == s
    ensures r.Failure? ==> r.error == NotAPolicyType(s) && forall t :: PolicyTypeValue(t) != s
  {
    if s == "thompson_sampling" then Success(ThompsonSampling) else Failure(NotAPolicyType(s))
  }

  lemma ParsePolicyTypeValue(t: TimingPolicyType)
    ensures ParsePolicyType(PolicyTypeValue(t)) == Success(t)
  {
  }

  /** The argument names kind `t`, as the member itself or as its value. */
  predicate Names(arg: PolicyTypeArg, t: TimingPolicyType)
  {
    arg == EnumArg(t) || arg == StringArg(PolicyTypeValue(t))
  }

  /**
   * `create_timing_policy`: the registered policy of the named kind.  The
   * enumeration is a `str` subclass, so a member takes the string branch too
   * and converts to itself; `user_id` is accepted and never read.
   */
  function CreateTimingPolicy<P>(
    registry: map<TimingPolicyType, P>, policyType: PolicyTypeArg, userId: Option<string>
  ): (r: Result<P, FactoryError>)
    ensures r.Success? <==> exists t :: t in registry && Names(policyType, t)
    ensures r.Success? ==> exists t :: t in registry && Names(policyType, t) && r.value == registry[t]
    ensures (policyType.StringArg? && forall t :: PolicyTypeValue(t) != policyType.name) ==>
      r == Failure(NotAPolicyType(policyType.name))
    ensures (policyType.EnumArg? && policyType.kind !in registry) ==>
      r == Failure(NoPolicyRegistered(policyType.kind))
  {
    var kind := match policyType
      case EnumArg(t) => Success(t)
      case StringArg(s) => ParsePolicyType(s);
    if kind.Failure? then Failure(kind.error)
    else if kind.value in registry then Success(registry[kind.value])
    else
      assert forall t | Names(policyType, t) :: t == kind.value by {
        forall t | Names(policyType, t) ensures t == kind.value {
          OnlyKind(t);
        }
      }
      Failure(NoPolicyRegistered(kind.value))
  }

  /** `POLICY_TYPE_TO_POLICY`: every kind maps to the one shared policy. */
  function PolicyTypeToPolicy<P>(thompson: P): (m: map<TimingPolicyType, P>)
    ensures forall t :: t in m && m[t] == thompson
  {
    var m := map[ThompsonSampling := thompson];
    assert forall t :: t in m && m[t] == thompson by {
      forall t ensures t in m && m[t] == thompson {
        OnlyKind(t);
      }
    }
    m
  }

  /** Both spellings of "thompson_sampling" return the singleton, whoever asks. */
  lemma RegistryReturnsSingleton<P>(singleton: P, userId: Option<string>)
    ensures CreateTimingPolicy(PolicyTypeToPolicy(singleton), EnumArg(ThompsonSampling), userId) == Success(singleton)
    ensures CreateTimingPolicy(PolicyTypeToPolicy(singleton), StringArg("thompson_sampling"), userId) == Success(singleton)
  {
  }

  /** The user id never changes the outcome. */
  lemma UserIdIgnored<P>(registry: map<TimingPolicyType, P>, policyType: PolicyTypeArg, u1: Option<string>, u2: Option<string>)
    ensures CreateTimingPolicy(registry, policyType, u1) == CreateTimingPolicy(registry, policyType, u2)
  {
  }

  /** With the source's registry the only failure is a string that names no kind. */
  lemma RegistryFailsOnlyOnUnknownName<P>(singleton: P, policyType: PolicyTypeArg, userId: Option<string>)
    ensures CreateTimingPolicy(PolicyTypeToPolicy(singleton), policyType, userId).Failure?
        <==> policyType.StringArg? && policyType.name != "thompson_sampling"
  {
  }

  /**
   * Two lookups return the same object, so an update made through the first
   * (the timing router's reward update) is what the second (its hour request)
   * reads.
   */
  method UpdateVisibleThroughNextLookup(
    singleton: ThompsonSamplerTimingPolicy, hour: int, reward: int, u1: Option<string>, u2: Option<string>
  ) returns (first: ThompsonSamplerTimingPolicy, second: ThompsonSamplerTimingPolicy)
    requires singleton.Valid()
    modifies singleton
    ensures first == singleton && second == singleton
    ensures second.Alpha(hour) == old(singleton.Alpha(hour)) + reward
    ensures second.Beta(hour) == old(singleton.Beta(hour)) + 1 - reward
    ensures second.Valid()
  {
    var registry := PolicyTypeToPolicy(singleton);
    RegistryReturnsSingleton(singleton, u1);
    RegistryReturnsSingleton(singleton, u2);
    var r1 := CreateTimingPolicy(registry, StringArg("thompson_sampling"), u1);
    first := r1.value;
    first.Update(hour, reward);
    var r2 := CreateTimingPolicy(registry, EnumArg(ThompsonSampling), u2);
    second := r2.value;
  }
}
