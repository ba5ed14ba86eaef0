/** Analysis records and saved views: the execution status transitions, the
    configuration merged with per-type defaults, and the sharing list of a
    saved view. Timestamps are the caller's "now". */
module AnalysisModels {
  import opened Wrappers

  datatype AnalysisType =
    | Survival | CoxRegression | KaplanMeier | Rmst | Wilcoxon | MannWhitney | KruskalWallis
    | Correlation | DifferentialAbundance | Diversity | Pca | Permanova | VolcanoPlot | Heatmap

  datatype AnalysisStatus = Pending | Running | Completed | Failed | Cancelled

  /** A JSON column value. */
  datatype Json =
    | JNull
    | JBool(b: bool)
    | JNum(x: real)
    | JStr(s: string)
    | JList(items: seq<Json>)
    | JObject(fields: map<string, Json>)

  /** Python truthiness of an optional JSON value: None, null, false, 0, "",
      [] and {} are false. */
  predicate Truthy(v: Option<Json>) {
    v.Some? && match v.value
               case JNull => false
               case JBool(b) => b
               case JNum(x) => x != 0.0
               case JStr(s) => s != ""
               case JList(items) => items != []
               case JObject(fields) => fields != map[]
  }

  type Config = map<string, Json>

  /** `_get_default_configuration`: the defaults per analysis type; a type
      without an entry gets {}. */
  function DefaultConfiguration(t: AnalysisType): (r: Config)
    ensures t !in {CoxRegression, KaplanMeier, Rmst, Wilcoxon, Correlation, Pca} ==> r == map[]
    ensures t in {CoxRegression, KaplanMeier, Rmst, Wilcoxon, Correlation} ==> "alpha" in r && r["alpha"] == JNum(0.05)
  {
    match t
    case CoxRegression => map["alpha" := JNum(0.05), "penalizer" := JNum(0.01), "l1_ratio" := JNum(0.0)]
    case KaplanMeier => map["alpha" := JNum(0.05), "confidence_interval" := JNum(0.95)]
    case Rmst => map["tau" := JNull, "alpha" := JNum(0.05)]
    case Wilcoxon => map["alpha" := JNum(0.05), "alternative" := JStr("two-sided")]
    case Correlation => map["method" := JStr("spearman"), "alpha" := JNum(0.05)]
    case Pca => map["n_components" := JNull, "scaling" := JStr("standard")]
    case _ => map[]
  }

  /** The user's configuration with every missing default added. */
  function WithDefaults(user: Config, defaults: Config): (r: Config)
    ensures r.Keys == user.Keys + defaults.Keys
    ensures forall k :: k in user ==> r[k] == user[k]
    ensures forall k :: k in defaults && k !in user ==> r[k] == defaults[k]
  {
    map k | k in user.Keys + defaults.Keys :: if k in user then user[k] else defaults[k]
  }

  /** Adding the defaults a second time changes nothing. */
  lemma WithDefaultsIdempotent(user: Config, defaults: Config)
    ensures WithDefaults(WithDefaults(user, defaults), defaults) == WithDefaults(user, defaults)
  {
    var once := WithDefaults(user, defaults);
    var twice := WithDefaults(once, defaults);
    assert forall k :: k in twice ==> twice[k] == once[k];
  }

  /** The stored configuration as `self.configuration or {}` sees it. */
  function Base(stored: Option<Config>): Config {
    if stored.Some? then stored.value else map[]
  }

  class Analysis {
    var analysisType: AnalysisType
    var status: AnalysisStatus
    var configuration: Option<Config>
    var results: Option<Json>
    var visualizationData: Option<Json>
    var executionTime: Option<real>
    var errorMessage: Option<string>
    var warnings: Option<Json>
    var updatedAt: Option<nat>
    var completedAt: Option<nat>

    /** A new analysis: pending, with only its type and configuration set. */
    constructor (analysisType: AnalysisType, configuration: Option<Config>)
      ensures this.analysisType == analysisType && this.configuration == configuration
      ensures status == Pending && results.None? && visualizationData.None? && executionTime.None?
      ensures errorMessage.None? && warnings.None? && updatedAt.None? && completedAt.None?
    {
      this.analysisType := analysisType;
      this.configuration := configuration;
      status := Pending;
      results := None;
      visualizationData := None;
      executionTime := None;
      errorMessage := None;
      warnings := None;
      updatedAt := None;
      completedAt := None;
    }

    /** `start_execution`: running from any status. */
    method StartExecution(now: nat)
      modifies this
      ensures status == Running && updatedAt == Some(now)
      ensures analysisType == old(analysisType) && configuration == old(configuration)
      ensures results == old(results) && visualizationData == old(visualizationData)
      ensures executionTime == old(executionTime) && errorMessage == old(errorMessage)
      ensures warnings == old(warnings) && completedAt == old(completedAt)
    {
      status := Running;
      updatedAt := Some(now);
    }

    /** `complete_execution`: completed from any status; each output is
        overwritten only by a truthy argument. */
    method CompleteExecution(now: nat, newResults: Option<Json>, newVisualization: Option<Json>,
                             newExecutionTime: Option<real>)
      modifies this
      ensures status == Completed && completedAt == Some(now)
      ensures results == if Truthy(newResults) then newResults else old(results)
      ensures visualizationData == if Truthy(newVisualization) then newVisualization else old(visualizationData)
      ensures executionTime == if newExecutionTime.Some? && newExecutionTime.value != 0.0
                               then newExecutionTime else old(executionTime)
      ensures analysisType == old(analysisType) && configuration == old(configuration)
      ensures errorMessage == old(errorMessage) && warnings == old(warnings) && updatedAt == old(updatedAt)
    {
      status := Completed;
      completedAt := Some(now);
      if Truthy(newResults) {
        results := newResults;
      }
      if Truthy(newVisualization) {
        visualizationData := newVisualization;
      }
      if newExecutionTime.Some? && newExecutionTime.value != 0.0 {
        executionTime := newExecutionTime;
      }
    }

    /** `fail_execution`: failed from any status; the message is always
        stored, the warnings only when truthy. */
    method FailExecution(message: Option<string>, newWarnings: Option<Json>)
      modifies this
      ensures status == Failed && errorMessage == message
      ensures warnings == if Truthy(newWarnings) then newWarnings else old(warnings)
      ensures analysisType == old(analysisType) && configuration == old(configuration)
      ensures results == old(results) && visualizationData == old(visualizationData)
      ensures executionTime == old(executionTime) && updatedAt == old(updatedAt) && completedAt == old(completedAt)
    {
      status := Failed;
      errorMessage := message;
      if Truthy(newWarnings) {
        warnings := newWarnings;
      }
    }

    /** `get_configuration`: the user's keys plus every missing default. A
        non-empty stored dict is the same object as `config`, so the stored
        configuration gains the defaults too; a None or empty one is left as it is. */
    method GetConfiguration() returns (config: Config)
      modifies this
      ensures config == WithDefaults(Base(old(configuration)), DefaultConfiguration(analysisType))
      ensures configuration == if old(configuration).Some? && old(configuration).value != map[]
                               then Some(config) else old(configuration)
      ensures analysisType == old(analysisType) && status == old(status)
      ensures results == old(results) && visualizationData == old(visualizationData)
      ensures executionTime == old(executionTime) && errorMessage == old(errorMessage)
      ensures warnings == old(warnings) && updatedAt == old(updatedAt) && completedAt == old(completedAt)
    {
      var shared := configuration.Some? && configuration.value != map[];
      config := Base(configuration);
      ghost var user := config;
      var defaults := DefaultConfiguration(analysisType);
      var remaining := defaults.Keys;
      while remaining != {}
        invariant remaining <= defaults.Keys
        invariant config.Keys == user.Keys + (defaults.Keys - remaining)
        invariant forall k :: k in user ==> config[k] == user[k]
        invariant forall k :: k in defaults.Keys - remaining && k !in user ==> config[k] == defaults[k]
        decreases remaining
      {
        var key :| key in remaining;
        if key !in config {
          config := config[key := defaults[key]];
        }
        remaining := remaining - {key};
      }
      assert config == WithDefaults(user, defaults);
      if shared {
        configuration := Some(config);
      }
    }
  }

  /** `share_with_user` on the list: append the id unless it is already there. */
  function Share(list: seq<int>, user: int): (r: seq<int>)
    ensures user in r
    ensures forall u :: u in r <==> u in list || u == user
  {
    if user in list then list else list + [user]
  }

  /** `list.remove(user)`: drop the first occurrence. */
  function RemoveFirst(list: seq<int>, user: int): (r: seq<int>)
    requires user in list
    ensures |r| == |list| - 1
    ensures forall u :: u in r ==> u in list
    ensures forall u :: u in list && u != user ==> u in r
  {
    if list[0] == user then list[1..]
    else [list[0]] + RemoveFirst(list[1..], user)
  }

  predicate NoDuplicates(list: seq<int>) {
    forall i, j :: 0 <= i < j < |list| ==> list[i] != list[j]
  }

  /** Sharing twice is sharing once. */
  lemma ShareIdempotent(list: seq<int>, user: int)
    ensures Share(Share(list, user), user) == Share(list, user)
  {
  }

  /** Sharing never introduces a duplicate. */
  lemma ShareKeepsNoDuplicates(list: seq<int>, user: int)
    requires NoDuplicates(list)
    ensures NoDuplicates(Share(list, user))
  {
  }

  /** On a list without duplicates, removing an id leaves no trace of it. */
  lemma {:induction false} RemoveFirstRemovesAll(list: seq<int>, user: int)
    requires user in list && NoDuplicates(list)
    ensures user !in RemoveFirst(list, user) && NoDuplicates(RemoveFirst(list, user))
  {
    if list[0] != user {
      assert NoDuplicates(list[1..]) by {
        forall i, j | 0 <= i < j < |list[1..]| ensures list[1..][i] != list[1..][j] {
          assert list[1..][i] == list[i + 1] && list[1..][j] == list[j + 1];
        }
      }
      RemoveFirstRemovesAll(list[1..], user);
      var rest := RemoveFirst(list[1..], user);
      forall i, j | 0 <= i < j < |[list[0]] + rest| ensures ([list[0]] + rest)[i] != ([list[0]] + rest)[j] {
        if i == 0 {
          assert ([list[0]] + rest)[j] == rest[j - 1] && rest[j - 1] in list[1..];
          assert list[0] !in list[1..] by {
            forall k | 0 <= k < |list[1..]| ensures list[1..][k] != list[0] {
              assert list[1..][k] == list[k + 1];
            }
          }
        }
      }
    } else {
      assert user !in list[1..] by {
        forall k | 0 <= k < |list[1..]| ensures list[1..][k] != user {
          assert list[1..][k] == list[k + 1];
        }
      }
    }
  }

  /** Unsharing an id that sharing just added restores the list. */
  lemma UnshareUndoesShare(list: seq<int>, user: int)
    requires user !in list
    ensures RemoveFirst(Share(list, user), user) == list
  {
    RemoveAppended(list, user);
  }

  lemma {:induction false} RemoveAppended(list: seq<int>, user: int)
    requires user !in list
    ensures RemoveFirst(list + [user], user) == list
  {
    if list != [] {
      assert (list + [user])[1..] == list[1..] + [user];
      RemoveAppended(list[1..], user);
    }
  }

  class SavedView {
    var userId: int
    var isPublic: bool
    var sharedWith: Option<seq<int>>
    var accessCount: int
    var lastAccessed: Option<nat>

    /** A new view: private, shared with nobody, never accessed. */
    constructor (userId: int)
      ensures this.userId == userId && !isPublic && sharedWith.None? && accessCount == 0 && lastAccessed.None?
    {
      this.userId := userId;
      isPublic := false;
      sharedWith := None;
      accessCount := 0;
      lastAccessed := None;
    }

    /** The sharing list as a list; None reads as empty. */
    function Shared(): seq<int>
      reads this
    {
      if sharedWith.Some? then sharedWith.value else []
    }

    /** `update_access`: one more access, at `now`. */
    method UpdateAccess(now: nat)
      modifies this
      ensures accessCount == old(accessCount) + 1 && lastAccessed == Some(now)
      ensures userId == old(userId) && isPublic == old(isPublic) && sharedWith == old(sharedWith)
    {
      lastAccessed := Some(now);
      accessCount := accessCount + 1;
    }

    /** `share_with_user`: a falsy list becomes [], then the id is appended
        unless present. */
    method ShareWithUser(user: int)
      modifies this
      ensures sharedWith == Some(Share(old(Shared()), user))
      ensures userId == old(userId) && isPublic == old(isPublic)
      ensures accessCount == old(accessCount) && lastAccessed == old(lastAccessed)
    {
      if sharedWith.None? || sharedWith.value == [] {
        sharedWith := Some([]);
      }
      if user !in sharedWith.value {
        sharedWith := Some(sharedWith.value + [user]);
      }
    }

    /** `unshare_with_user`: removes the first occurrence when present, and is
        a no-op otherwise. */
    method UnshareWithUser(user: int)
      modifies this
      ensures sharedWith == if user in old(Shared())
                            then Some(RemoveFirst(old(Shared()), user)) else old(sharedWith)
      ensures userId == old(userId) && isPublic == old(isPublic)
      ensures accessCount == old(accessCount) && lastAccessed == old(lastAccessed)
    {
      if sharedWith.Some? && sharedWith.value != [] && user in sharedWith.value {
        sharedWith := Some(RemoveFirst(sharedWith.value, user));
      }
    }

    /** `can_access`: the owner, anyone when public, or a listed user. */
    predicate CanAccess(user: int): (r: bool)
      reads this
      ensures r <==> user == userId || isPublic || user in Shared()
    {
      userId == user || isPublic || (sharedWith.Some? && sharedWith.value != [] && user in sharedWith.value)
    }
  }

  /** Access is exactly ownership, publicity or membership in the sharing list. */
  lemma CanAccessIff(v: SavedView, user: int)
    ensures v.CanAccess(user) <==> user == v.userId || v.isPublic || user in v.Shared()
  {
  }

  /** After sharing with a user, that user can access the view. */
  lemma SharedUserCanAccess(v: SavedView, list: seq<int>, user: int)
    requires v.sharedWith == Some(Share(list, user))
    ensures v.CanAccess(user)
  {
  }

  /** After unsharing, a user who neither owns the view nor sees it publicly
      loses access, provided the list had no duplicates. */
  lemma UnsharedUserLosesAccess(v: SavedView, list: seq<int>, user: int)
    requires user in list && NoDuplicates(list)
    requires v.sharedWith == Some(RemoveFirst(list, user)) && v.userId != user && !v.isPublic
    ensures !v.CanAccess(user)
  {
    RemoveFirstRemovesAll(list, user);
  }
}
