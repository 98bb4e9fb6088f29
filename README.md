# Telegram listener bot: process registry and control panel

This project models the core of `ListnerBot.py`, a Telegram bot that lets authorized operators start and stop Python scripts from a group chat.

- **Configuration.** An in-memory document holds a `groups` dictionary. It is keyed by the decimal text of a chat id. Each group may hold a name, a welcome text, a list of scripts (name, path, optional description) and an auto-post flag.
- **Script map.** `get_scripts_for_group` turns a chat's script list into a dictionary from name to path. It is modelled as an insertion-ordered table (`ScriptTable.Table`): a later entry with a name already seen replaces that name's path, and the name keeps its first position.
- **Process registry.** `running_processes` is a map from script name to an abstract child handle: pid, command line, and whether `poll()` reports it alive. It is global: all groups share it, keyed by script name alone.
- **Control panel.** `create_control_panel` builds a keyboard with one row per script. Each row offers `start_<name>` or `stop_<name>` according to liveness, plus a `status` button. A last row holds `refresh` and `settings`. The keyboard is modelled as rows of (label, callback string).
- **Handlers.** The class `ListenerBot.Bot` holds the configuration, its last saved copy and the registry. Its methods are `/menu`, `/setup_group` and the button-callback handler. The callback handler checks authorization, then dispatches on the callback string: `refresh`, `settings` and `status` as exact matches, then `start_` and `stop_` as prefixes.
- **Operating system.** The OS is an oracle. `SpawnOutcome` says whether `Popen` returned a child or raised. `StopOracle` says whether `terminate()` raised, whether the child exited within the 5-second `wait`, and whether `kill()` raised. The handlers return the list of OS calls they made, in order.

Three behaviours of the code are worth stating outright:
- A running script is known by its name alone. A start anywhere refuses a name that is live, whichever group started it. A stop looks only at the registry, not at the chat's script map, so any group can stop a script by name.
- Stopping a handle whose process has exited answers "not running" and keeps the stale entry. A later successful start overwrites it.
- Start does not check that the path exists. It only refuses a name that is missing or whose path is the empty string (Python falsiness).

## Model

| member | source | states |
|---|---|---|
| Decimal.PyStr | ListnerBot.py:169 | the text of a chat id is never empty, and it starts with a minus sign exactly when the id is negative |
| Decimal.PyStrRoundTrip | ListnerBot.py:37 | reading back `str(n)` as an integer gives `n` again, for negative chat ids too |
| Decimal.PyStrInjective | ListnerBot.py:34-37 | two chat ids have the same `groups` key exactly when they are the same id |
| BotConfig.GetGroupConfig | ListnerBot.py:34-37 | a chat has a group exactly when `str(chat_id)` is a key of `groups` |
| BotConfig.Configured | ListnerBot.py:42 | the `if not group_config` gate: the chat's key is present and its group dict is non-empty (unlike the key-presence test of `/setup_group`) |
| BotConfig.LookupAfterStore | ListnerBot.py:194-197 | storing a group under one chat's key gives that chat the new group and leaves every other chat's lookup unchanged |
| ScriptTable.Insert | ListnerBot.py:47 | dict assignment sets the name's path; a new name goes to the end and an existing name keeps its place; names stay distinct and equal to the keys |
| ScriptTable.Project | ListnerBot.py:45-48 | the table the loop builds always has distinct names that are exactly its keys |
| ScriptTable.ProjectKeys | ListnerBot.py:45-48 | a name is a key of the script map iff some configured entry has that name |
| ScriptTable.ProjectLastWins | ListnerBot.py:46-47 | a name maps to the path of its last entry; an earlier duplicate is overwritten |
| ScriptTable.ProjectOrder | ListnerBot.py:46-47 | the map lists names in the order of their first occurrence, and every listed name occurs among the entries |
| ScriptTable.ConfiguredScripts | ListnerBot.py:41-46 | the entries the loop walks: `group_config.get("scripts", [])` for a configured chat, none otherwise |
| ScriptTable.ScriptsForGroup | ListnerBot.py:39-44 | an unconfigured chat, or one whose group entry is an empty dict, yields the empty map |
| ScriptTable.ScriptsForGroupShape | ListnerBot.py:39-48 | for a chat, the script map's keys are exactly the configured names, last path wins, first-occurrence order |
| ScriptTable.GetScriptsForGroup | ListnerBot.py:39-48 | the loop computes exactly the chat's script map |
| ProcessRegistry.IsRunning | ListnerBot.py:58 | a script counts as running only when its name has a live handle, so the running counter is then positive |
| ProcessRegistry.CountRunning | ListnerBot.py:284 | the running counter never exceeds the number of entries, and is zero iff no entry is alive |
| ProcessRegistry.CountAfterStart | ListnerBot.py:284 | after a start the running counter grows by exactly one if the script was started, and is unchanged otherwise |
| ProcessRegistry.CountAfterStop | ListnerBot.py:284 | after a stop the running counter drops by exactly one if the script was stopped, and is unchanged otherwise |
| ProcessRegistry.Launchable | ListnerBot.py:303-305 | a startable name has a non-empty path in the script map and is one of the names the panel lists |
| ProcessRegistry.Argv | ListnerBot.py:313 | the command line of a start: `["python3", script_path]` |
| ProcessRegistry.StartEffect | ListnerBot.py:301-319 | an unknown or empty-path name gives "Script not found"; a live name gives "already running"; both leave the registry unchanged; otherwise `python3 <path>` is spawned, and on success the name maps to a new live handle, even over a stale one; a failed spawn changes nothing |
| ProcessRegistry.ShutdownOf | ListnerBot.py:327-335 | stop always terminates first and then waits at most 5 seconds; it kills only if that wait timed out, and waits without limit only after a kill that was delivered; it succeeds iff no signal call raised; a raising `terminate()` stops after that one call with its error, and a raising `kill()` stops after the kill with its error |
| ProcessRegistry.StopEffect | ListnerBot.py:321-344 | a name absent from the registry gives "No running process found"; an exited handle gives "not running"; both make no OS call and keep the entry; a live handle is shut down, and on success exactly that key is removed, on failure the entry is kept |
| ProcessRegistry.StartThenStop | ListnerBot.py:301-344 | a successful start followed by a clean stop leaves the registry as before, minus any stale entry for that name |
| CallbackData.StartsWith | ListnerBot.py:301 | Python's `str.startswith`: the string is at least as long as the prefix and begins with it |
| CallbackData.Parse | ListnerBot.py:264-322 | `refresh`, `settings` and `status` are recognised exactly; a start or stop action always comes from its prefix followed by the script name; any other string is unmatched |
| CallbackData.ParseStart | ListnerBot.py:301-302 | for every name `n`, `"start_" + n` routes to the start branch with script name exactly `n` |
| CallbackData.ParseStop | ListnerBot.py:321-322 | for every name `n`, `"stop_" + n` routes to the stop branch with script name exactly `n` |
| ControlPanel.ScriptRow | ListnerBot.py:58-71 | a script's row has two buttons: `stop_<name>` if it is running, else `start_<name>`, then `status` |
| ControlPanel.UtilityRow | ListnerBot.py:73-77 | the last keyboard row: a refresh button with callback `refresh`, then a settings button with callback `settings` |
| ControlPanel.ScriptRows | ListnerBot.py:57-71 | one row per script name, in the map's order, each reflecting that script's liveness |
| ControlPanel.Panel | ListnerBot.py:50-79 | no keyboard iff the script map is empty; otherwise one row per script plus a final refresh/settings row |
| ControlPanel.PanelRoutes | ListnerBot.py:57-77 | every button of the keyboard routes, through the callback parser, to the action it offers |
| ControlPanel.CreateControlPanel | ListnerBot.py:50-79 | the loop builds exactly that keyboard |
| ControlPanel.StatusReport | ListnerBot.py:291-299 | the status report has one line per script of the map, in order, saying whether that script runs |
| ListenerBot.ChatTitle | ListnerBot.py:171 | the title used for a group is never empty: the chat's own title when it has a non-empty one, else a fallback |
| ListenerBot.SetupWelcome | ListnerBot.py:199 | the welcome text of a new group: the chat title set inside the fixed control-panel greeting |
| ListenerBot.DefaultGroup | ListnerBot.py:197-208 | the default group entry is non-empty, carries the chat title as its name, has auto-post on and holds exactly one script, the example script |
| ListenerBot.GroupName | ListnerBot.py:280 | the settings title is "Not Configured" for a missing or empty group, the group's name when it has one, and "Unknown" otherwise |
| ListenerBot.SetupGroupEffect | ListnerBot.py:193-208 | after setup the chat is configured with auto-post on and exactly one example script, and other chats are untouched |
| ListenerBot.Bot.constructor | ListnerBot.py:25-31 | the bot starts with the loaded configuration, equal to the saved one, and an empty registry |
| ListenerBot.Bot.Menu | ListnerBot.py:122-160 | unauthorized callers are rejected; an unconfigured chat is reported; an empty script map gives "no scripts"; otherwise the keyboard with the group's welcome text (default if absent) |
| ListenerBot.Bot.SetupGroup | ListnerBot.py:162-210 | unauthorized, non-group and already-configured chats leave the configuration unchanged; otherwise exactly one default entry is added and saved; the registry is never touched |
| ListenerBot.Bot.Button | ListnerBot.py:249-344 | unauthorized callers change neither registry nor configuration; the configuration is never changed; each action changes the registry and makes OS calls exactly as its transition says |
| ListenerBot.Bot.HandleStart | ListnerBot.py:301-319 | the start branch updates the registry in place as `StartEffect` describes |
| ListenerBot.Bot.HandleStop | ListnerBot.py:321-344 | the stop branch updates the registry in place as `StopEffect` describes |

## Left out

- Telegram transport: `Update`, the keyboard classes, `reply_text`, `edit_message_text`, `query.answer`, Markdown texts and emoji labels, and the application, handlers and polling loop (lines 1-2, 357-374). Replies are a datatype of outcomes, and buttons are (label kind, callback string).
- A transport error inside the `try` blocks of start and stop is not modelled. If `edit_message_text` raised after the registry changed, the source would report a failure although the change was made. The model treats message sending as infallible.
- File I/O: `load_config` and `save_config` and their `exit(1)` paths are not modelled (lines 10-23). The configuration is an in-memory value. `save_config` is a snapshot into the field `saved`. `BOT_TOKEN` is not modelled.
- `/start` (lines 114-120) repeats the authorization check and calls `menu`, so it behaves exactly as `Bot.Menu`. It is not modelled separately.
- `auto_post_control_panel` and `post_init` (lines 81-111, 347-354) only send messages and log. `handle_message` (lines 231-246) and all `print` calls are logging only.
- Real process control (`subprocess.Popen`, signals, real timeouts) is not modelled, and neither is the unused `psutil` import. Their results are oracle parameters.
- No operation models a child exiting on its own between commands. Every handler's contract holds whatever liveness the registry records.
- In the stop sequence only `terminate()` and `kill()` may raise. A `wait(timeout=5)` error other than the timeout, or an error of the final `wait()`, is not modelled.
- The configuration is assumed well-typed: script entries have `name` and `path`, and group values are dictionaries. The `KeyError` and type errors of malformed JSON are not modelled.
- BotConfig.Group.Truthy: a group dict counts as non-empty when it holds one of the four keys the code reads. A dict holding only other keys is treated as empty, although Python treats it as truthy.
- Concurrency and `asyncio` are not modelled. Each command is handled as one sequential step.
