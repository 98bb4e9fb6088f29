/**
 * The bot's mutable state and its handlers: the configuration (with its last
 * saved copy), the global `running_processes` registry, and the `/menu`,
 * `/setup_group` and button-callback handlers that read and change them.
 */
module ListenerBot {
  import opened Decimal
  import opened BotConfig
  import opened ScriptTable
  import opened ProcessRegistry
  import opened CallbackData
  import opened ControlPanel

  /** Welcome text used when a group has no `welcome_message`. */
  const DEFAULT_WELCOME: string := "\U{1F916} Script Control Panel \U{1F916}"

  /** The chat types `/setup_group` accepts. */
  const GROUP_CHAT_TYPES: seq<string> := ["group", "supergroup"]

  /** The counters of the settings alert. */
  datatype SettingsInfo = SettingsInfo(
    groupName: string,
    authorizedUsers: nat,
    configuredScripts: nat,
    runningProcesses: nat,
    autoPostControlPanel: bool,
    chatId: int)

  /** What a handler answers; the Markdown texts themselves are not modelled. */
  datatype Reply =
    | Unauthorized
    | NotConfigured(chatId: int)
    | NoScripts
    | ShowPanel(welcome: string, rows: seq<Row>)
    | SettingsAlert(settings: SettingsInfo)
    | StatusAlert(lines: seq<StatusLine>)
    | StartReply(script: string, started: StartOutcome)
    | StopReply(script: string, stopped: StopOutcome)
    | NotGroupChat(chatType: string, chatKey: string)
    | AlreadyConfigured(title: string, chatKey: string)
    | SetupComplete(title: string, chatKey: string)
    | NoReply

  /** `update.effective_chat.title or "Unknown Group"`. */
  function ChatTitle(title: Option<string>): (t: string)
    ensures t != ""
    ensures title.Some? && title.value != "" ==> t == title.value
  {
    if title.Some? && title.value != "" then title.value else "Unknown Group"
  }

  /** The welcome text a new group gets, with the chat title inside it. */
  function SetupWelcome(title: string): string {
    "\U{1F916} **" + title + " Control Panel** \U{1F916}\n\nManage your scripts here!\n\n"
      + "\U{1F7E2} = Start Script\n\U{1F534} = Stop Script\n\U{1F4CA} = Current Status"
  }

  /** The entry `/setup_group` stores for a new group. */
  function DefaultGroup(title: string): (g: Group)
    ensures g.Truthy() && g.name == Some(title) && g.autoPost == Some(true)
    ensures g.scripts.Some? && |g.scripts.value| == 1 && g.scripts.value[0].name == "Example Script"
  {
    Group(
      Some(title),
      Some(SetupWelcome(title)),
      Some([Script("Example Script", "/path/to/your/script.py", Some("Replace this with your actual script"))]),
      Some(true))
  }

  /**
   * After `/setup_group` stores its default entry, the chat is configured, its
   * script map holds exactly the example script, auto-post is on, and every
   * other chat looks up what it looked up before.
   */
  lemma SetupGroupEffect(cfg: Config, chat: int, title: string, other: int)
    ensures var cfg' := cfg.(groups := cfg.groups[PyStr(chat) := DefaultGroup(title)]);
            && Configured(cfg', chat)
            && GetGroupConfig(cfg', chat).value.autoPost == Some(true)
            && ScriptsForGroup(cfg', chat).names == ["Example Script"]
            && ScriptsForGroup(cfg', chat).paths == map["Example Script" := "/path/to/your/script.py"]
            && (other != chat ==> GetGroupConfig(cfg', other) == GetGroupConfig(cfg, other))
  {
    LookupAfterStore(cfg, chat, chat, DefaultGroup(title));
    LookupAfterStore(cfg, chat, other, DefaultGroup(title));
    var es := ConfiguredScripts(cfg.(groups := cfg.groups[PyStr(chat) := DefaultGroup(title)]), chat);
    assert es[..0] == [];
  }

  /** The group name the settings alert shows. */
  function GroupName(g: Option<Group>): (name: string)
    ensures (g.None? || !g.value.Truthy()) ==> name == "Not Configured"
    ensures g.Some? && g.value.Truthy() && g.value.name.Some? ==> name == g.value.name.value
    ensures g.Some? && g.value.Truthy() && g.value.name.None? ==> name == "Unknown"
  {
    if g.Some? && g.value.Truthy() then g.value.name.GetOr("Unknown") else "Not Configured"
  }

  class Bot {
    /** `AUTHORIZED_USER_IDS`, read once when the configuration is loaded. */
    const authorized: seq<int>
    /** The configuration in memory. */
    var config: Config
    /** The configuration as last written by `save_config`. */
    var saved: Config
    /** `running_processes`. */
    var running: Registry

    /** The configuration only changes inside `/setup_group`, which saves it at once. */
    ghost predicate Valid()
      reads this
    {
      saved == config
    }

    /** Start-up: the loaded configuration, no processes. */
    constructor (authorizedIds: seq<int>, loaded: Config)
      ensures Valid()
      ensures authorized == authorizedIds && config == loaded && running == map[]
    {
      authorized := authorizedIds;
      config := loaded;
      saved := loaded;
      running := map[];
    }

    /** `/menu`: authorization, then the configuration gate, then the keyboard. */
    method Menu(user: int, chat: int) returns (reply: Reply)
      ensures user !in authorized ==> reply == Unauthorized
      ensures user in authorized && !Configured(config, chat) ==> reply == NotConfigured(chat)
      ensures user in authorized && Configured(config, chat) ==>
                var panel := Panel(ScriptsForGroup(config, chat), running);
                && (panel.None? ==> reply == NoScripts)
                && (panel.Some? ==> reply == ShowPanel(GetGroupConfig(config, chat).value.welcome.GetOr(DEFAULT_WELCOME), panel.value))
    {
      if user !in authorized {
        return Unauthorized;
      }
      var group := GetGroupConfig(config, chat);
      if group.None? || !group.value.Truthy() {
        return NotConfigured(chat);
      }
      var scripts := GetScriptsForGroup(config, chat);
      var keyboard := CreateControlPanel(scripts, running);
      if keyboard.None? {
        return NoScripts;
      }
      reply := ShowPanel(group.value.welcome.GetOr(DEFAULT_WELCOME), keyboard.value);
    }

    /** `/setup_group`: add a default entry for a new group chat and save. */
    method SetupGroup(user: int, chat: int, chatType: string, title: Option<string>) returns (reply: Reply)
      requires Valid()
      modifies this
      ensures Valid()
      ensures running == old(running)
      ensures user !in authorized ==> reply == Unauthorized && config == old(config)
      ensures user in authorized && chatType !in GROUP_CHAT_TYPES ==>
                reply == NotGroupChat(chatType, PyStr(chat)) && config == old(config)
      ensures user in authorized && chatType in GROUP_CHAT_TYPES && PyStr(chat) in old(config).groups ==>
                reply == AlreadyConfigured(ChatTitle(title), PyStr(chat)) && config == old(config)
      ensures user in authorized && chatType in GROUP_CHAT_TYPES && PyStr(chat) !in old(config).groups ==>
                && reply == SetupComplete(ChatTitle(title), PyStr(chat))
                && config == old(config).(groups := old(config).groups[PyStr(chat) := DefaultGroup(ChatTitle(title))])
    {
      if user !in authorized {
        return Unauthorized;
      }
      var key := PyStr(chat);
      var chatTitle := ChatTitle(title);
      if chatType !in GROUP_CHAT_TYPES {
        return NotGroupChat(chatType, key);
      }
      if key in config.groups {
        return AlreadyConfigured(chatTitle, key);
      }
      config := config.(groups := config.groups[key := DefaultGroup(chatTitle)]);
      saved := config;
      reply := SetupComplete(chatTitle, key);
    }

    /**
     * The callback-query handler. `spawn` is what `Popen` does and `oracle`
     * how the child behaves while being stopped, should either be reached;
     * `calls` lists the operating-system calls made, in order.
     */
    method Button(user: int, chat: int, data: string, spawn: SpawnOutcome, oracle: StopOracle)
      returns (reply: Reply, calls: seq<OsCall>)
      requires Valid()
      modifies this
      ensures Valid() && config == old(config)
      ensures user !in authorized ==> reply == Unauthorized && running == old(running) && calls == []
      ensures user in authorized ==>
                var scripts := ScriptsForGroup(config, chat);
                match Parse(data)
                case Refresh =>
                  && running == old(running) && calls == []
                  && var panel := Panel(scripts, running);
                     && (panel.None? ==> reply == NoScripts)
                     && (panel.Some? ==>
                           GetGroupConfig(config, chat).Some? &&
                           reply == ShowPanel(GetGroupConfig(config, chat).value.welcome.GetOr(DEFAULT_WELCOME), panel.value))
                case Settings =>
                  && running == old(running) && calls == []
                  && reply == SettingsAlert(SettingsInfo(GroupName(GetGroupConfig(config, chat)), |authorized|,
                                                         |scripts.names|, CountRunning(running),
                                                         config.autoPostControlPanel, chat))
                case Status =>
                  && running == old(running) && calls == []
                  && reply.StatusAlert? && |reply.lines| == |scripts.names|
                  && forall i :: 0 <= i < |scripts.names| ==>
                       reply.lines[i] == StatusLine(scripts.names[i], IsRunning(running, scripts.names[i]))
                case StartScript(name) =>
                  var step := StartEffect(old(running), scripts, name, spawn);
                  reply == StartReply(name, step.outcome) && running == step.reg && calls == step.calls
                case StopScript(name) =>
                  var step := StopEffect(old(running), name, oracle);
                  reply == StopReply(name, step.outcome) && running == step.reg && calls == step.calls
                case Unmatched =>
                  reply == NoReply && running == old(running) && calls == []
    {
      calls := [];
      if user !in authorized {
        return Unauthorized, calls;
      }
      var scripts := GetScriptsForGroup(config, chat);
      var group := GetGroupConfig(config, chat);
      match Parse(data)
      case Refresh =>
        var keyboard := CreateControlPanel(scripts, running);
        if keyboard.None? {
          reply := NoScripts;
        } else {
          // A non-empty script map comes from a configured group.
          assert group.Some?;
          reply := ShowPanel(group.value.welcome.GetOr(DEFAULT_WELCOME), keyboard.value);
        }
      case Settings =>
        var groupName := GroupName(group);
        reply := SettingsAlert(SettingsInfo(groupName, |authorized|, |scripts.names|, CountRunning(running),
                                            config.autoPostControlPanel, chat));
      case Status =>
        var lines := StatusReport(scripts, running);
        reply := StatusAlert(lines);
      case StartScript(name) =>
        reply, calls := HandleStart(scripts, name, spawn);
      case StopScript(name) =>
        reply, calls := HandleStop(name, oracle);
      case Unmatched =>
        reply := NoReply;
    }

    /** The `start_` branch: look the name up in this chat's scripts, refuse a live one, spawn. */
    method HandleStart(scripts: Table, name: string, spawn: SpawnOutcome) returns (reply: Reply, calls: seq<OsCall>)
      modifies this`running
      ensures var step := StartEffect(old(running), scripts, name, spawn);
              reply == StartReply(name, step.outcome) && running == step.reg && calls == step.calls
    {
      calls := [];
      if Launchable(scripts, name) {
        if IsRunning(running, name) {
          reply := StartReply(name, AlreadyRunning);
        } else {
          var argv := Argv(scripts.paths[name]);
          calls := calls + [Popen(argv)];
          match spawn
          case Spawned(pid) =>
            running := running[name := Proc(pid, argv, true)];
            reply := StartReply(name, Started(pid));
          case SpawnRaised(e) =>
            reply := StartReply(name, StartFailed(e));
        }
      } else {
        reply := StartReply(name, ScriptNotFound);
      }
    }

    /** The `stop_` branch: terminate, wait out the grace period, kill if need be, forget the handle. */
    method HandleStop(name: string, oracle: StopOracle) returns (reply: Reply, calls: seq<OsCall>)
      modifies this`running
      ensures var step := StopEffect(old(running), name, oracle);
              reply == StopReply(name, step.outcome) && running == step.reg && calls == step.calls
    {
      calls := [];
      if name in running {
        var process := running[name];
        if process.alive {
          var failure: Option<string> := None;
          calls := calls + [Terminate];
          match oracle.terminate {
            case SignalRaised(e) =>
              failure := Some(e);
            case Delivered =>
              calls := calls + [WaitAtMost(GRACE)];
              if !oracle.exitsInGrace {
                calls := calls + [Kill];
                match oracle.kill {
                  case SignalRaised(e) =>
                    failure := Some(e);
                  case Delivered =>
                    calls := calls + [WaitForExit];
                }
              }
          }
          if failure.None? {
            running := running - {name};
            reply := StopReply(name, Stopped);
          } else {
            reply := StopReply(name, StopFailed(failure.value));
          }
        } else {
          reply := StopReply(name, NotRunning);
        }
      } else {
        reply := StopReply(name, NoProcessFound);
      }
    }
  }
}
