/**
 * The data-load feature: loading the accounts list, showing the loading
 * flag, and reporting a failure. Its reducer updates a two-field state in
 * place and returns an effect, modelled here as the actions the effect
 * sends, in order.
 */
module DataLoadFeature {
  import opened Wrappers
  import APIAccounts

  datatype ViewAction = Task

  datatype DelegateAction = AccountsUpdated(accounts: seq<APIAccounts.Account>)

  datatype Action =
    | View(view: ViewAction)
    | Delegate(delegate: DelegateAction)
    | IsLoadingDataUpdated(flag: bool)
    | ErrorMessageUpdated(message: string)

  /**
   * How the accounts request ends: the accounts, or the thrown error's
   * `localizedDescription`. It stands for the network call the effect makes.
   */
  datatype FetchOutcome = Fetched(accounts: seq<APIAccounts.Account>) | FetchFailed(description: string)

  /** The reducer's state as a value. */
  datatype State = State(errorMessage: Option<string>, isLoadingData: bool)

  /** `DataLoad.State()`: no error and not loading. */
  const Initial: State := State(None, false)

  /** The state after the reducer handles `action`. */
  function Next(s: State, action: Action): (t: State)
    ensures action.View? ==> t == s.(isLoadingData := true)
    ensures action.IsLoadingDataUpdated? ==> t == s.(isLoadingData := action.flag)
    ensures action.ErrorMessageUpdated? ==> t == s.(errorMessage := Some(action.message))
    ensures action.Delegate? ==> t == s
  {
    match action
    case View(Task) => s.(isLoadingData := true)
    case ErrorMessageUpdated(message) => s.(errorMessage := Some(message))
    case IsLoadingDataUpdated(flag) => s.(isLoadingData := flag)
    case Delegate(_) => s
  }

  /**
   * The actions the returned effect sends, in order. Only `view(.task)` runs
   * one: on success it clears the loading flag and then hands the accounts
   * to the parent; on failure it reports the error and then clears the flag.
   */
  function Effect(action: Action, fetch: FetchOutcome): (sent: seq<Action>)
    ensures !action.View? ==> sent == []
    ensures action.View? && fetch.Fetched? ==>
      sent == [IsLoadingDataUpdated(false), Delegate(AccountsUpdated(fetch.accounts))]
    ensures action.View? && fetch.FetchFailed? ==>
      sent == [ErrorMessageUpdated(fetch.description), IsLoadingDataUpdated(false)]
  {
    match action
    case View(Task) =>
      (match fetch
       case Fetched(accounts) => [IsLoadingDataUpdated(false), Delegate(AccountsUpdated(accounts))]
       case FetchFailed(description) => [ErrorMessageUpdated(description), IsLoadingDataUpdated(false)])
    case _ => []
  }

  /** The state after the store feeds `actions` to the reducer one after another. */
  function Apply(s: State, actions: seq<Action>): State
    decreases |actions|
  {
    if actions == [] then s else Apply(Next(s, actions[0]), actions[1..])
  }

  lemma ApplyTwo(s: State, a: Action, b: Action)
    ensures Apply(s, [a, b]) == Next(Next(s, a), b)
  {
    assert [a, b][1..] == [b];
    assert [b][1..] == [];
    assert Apply(Next(s, a), [b]) == Apply(Next(Next(s, a), b), []);
  }

  /** The state once a load has started and everything its effect sent has been handled. */
  function AfterLoad(s: State, fetch: FetchOutcome): State {
    Apply(Next(s, View(Task)), Effect(View(Task), fetch))
  }

  /**
   * A load always ends with the loading flag cleared. A failed load leaves
   * its error's description as the message; a successful one leaves the
   * previous message as it was, so it never clears an old error.
   */
  lemma LoadOutcome(s: State, fetch: FetchOutcome)
    ensures !AfterLoad(s, fetch).isLoadingData
    ensures fetch.FetchFailed? ==> AfterLoad(s, fetch).errorMessage == Some(fetch.description)
    ensures fetch.Fetched? ==> AfterLoad(s, fetch).errorMessage == s.errorMessage
  {
    var sent := Effect(View(Task), fetch);
    ApplyTwo(Next(s, View(Task)), sent[0], sent[1]);
  }

  /** Only a successful load hands accounts to the parent, exactly once, and last. */
  lemma DelegateOnlyOnSuccess(fetch: FetchOutcome)
    ensures var sent := Effect(View(Task), fetch);
            && (fetch.Fetched? ==> sent[|sent| - 1] == Delegate(AccountsUpdated(fetch.accounts))
                                   && forall i | 0 <= i < |sent| - 1 :: !sent[i].Delegate?)
            && (fetch.FetchFailed? ==> forall i | 0 <= i < |sent| :: !sent[i].Delegate?)
  {
  }

  /** The actions a load sends start no further work. */
  lemma SentActionsRunNothing(fetch: FetchOutcome, other: FetchOutcome)
    ensures forall a | a in Effect(View(Task), fetch) :: Effect(a, other) == []
  {
  }

  /** The reducer, holding its state in place. */
  class DataLoad {
    var errorMessage: Option<string>
    var isLoadingData: bool

    function StateOf(): State
      reads this
    {
      State(errorMessage, isLoadingData)
    }

    /** `DataLoad.State()`. */
    constructor()
      ensures StateOf() == Initial
    {
      errorMessage := None;
      isLoadingData := false;
    }

    /** One reduce step: update the fields for `action` and return what its effect sends. */
    method Reduce(action: Action, fetch: FetchOutcome) returns (sent: seq<Action>)
      modifies this
      ensures StateOf() == Next(old(StateOf()), action)
      ensures sent == Effect(action, fetch)
    {
      match action {
        case View(Task) =>
          isLoadingData := true;
          match fetch {
            case Fetched(accounts) =>
              sent := [IsLoadingDataUpdated(false), Delegate(AccountsUpdated(accounts))];
            case FetchFailed(description) =>
              sent := [ErrorMessageUpdated(description), IsLoadingDataUpdated(false)];
          }
        case ErrorMessageUpdated(message) =>
          errorMessage := Some(message);
          sent := [];
        case IsLoadingDataUpdated(flag) =>
          isLoadingData := flag;
          sent := [];
        case Delegate(_) =>
          sent := [];
      }
    }

    /**
     * `view(.task)` followed by the actions its effect sends, handled in the
     * order they are sent, as the store does; `sent` is what the effect sent.
     */
    method Load(fetch: FetchOutcome) returns (sent: seq<Action>)
      modifies this
      ensures sent == Effect(View(Task), fetch)
      ensures StateOf() == AfterLoad(old(StateOf()), fetch)
      ensures !isLoadingData
      ensures fetch.Fetched? ==> errorMessage == old(errorMessage)
      ensures fetch.FetchFailed? ==> errorMessage == Some(fetch.description)
    {
      ghost var start := StateOf();
      sent := Reduce(View(Task), fetch);
      var ignored := Reduce(sent[0], fetch);
      ignored := Reduce(sent[1], fetch);
      ApplyTwo(Next(start, View(Task)), sent[0], sent[1]);
      LoadOutcome(start, fetch);
    }
  }
}
