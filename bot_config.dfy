/**
 * The in-memory configuration document of the listener bot: the `groups`
 * dictionary keyed by the decimal text of a chat id, each group holding its
 * optional display name, welcome text, script list and auto-post flag.
 */
module BotConfig {
  import opened Decimal

  datatype Option<T> = None | Some(value: T) {
    /** Python's `d.get(key, default)` on an optional entry. */
    function GetOr(default: T): T {
      match this
      case Some(v) => v
      case None => default
    }
  }

  /** One entry of a group's `scripts` list. */
  datatype Script = Script(name: string, path: string, description: Option<string>)

  /** One value of the `groups` dictionary; a key the JSON object omits is `None`. */
  datatype Group = Group(
    name: Option<string>,
    welcome: Option<string>,
    scripts: Option<seq<Script>>,
    autoPost: Option<bool>)
  {
    /** A Python dict is truthy when it holds at least one key. */
    predicate Truthy() {
      name.Some? || welcome.Some? || scripts.Some? || autoPost.Some?
    }
  }

  /** The configuration document; a missing `groups` key reads as the empty dictionary. */
  datatype Config = Config(autoPostControlPanel: bool, groups: map<string, Group>)

  /** `get_group_config`: the group stored under `str(chat)`, if any. */
  function GetGroupConfig(cfg: Config, chat: int): (g: Option<Group>)
    ensures g.Some? <==> PyStr(chat) in cfg.groups
  {
    if PyStr(chat) in cfg.groups then Some(cfg.groups[PyStr(chat)]) else None
  }

  /** What `if not group_config` lets through: a present, non-empty group. */
  predicate Configured(cfg: Config, chat: int) {
    GetGroupConfig(cfg, chat).Some? && GetGroupConfig(cfg, chat).value.Truthy()
  }

  /**
   * Storing a group under one chat's key changes what every other chat looks
   * up not at all, because distinct ids have distinct keys.
   */
  lemma LookupAfterStore(cfg: Config, chat: int, other: int, g: Group)
    ensures GetGroupConfig(cfg.(groups := cfg.groups[PyStr(chat) := g]), other)
            == if other == chat then Some(g) else GetGroupConfig(cfg, other)
  {
    PyStrInjective(chat, other);
  }
}
