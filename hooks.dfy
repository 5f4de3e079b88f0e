/**
 * The process-wide security state the lock screen changes through Win32:
 * the handle of its low-level keyboard hook (the global `hook_id`) and the
 * `DisableTaskMgr` policy value in the registry.
 */
module Hooks {

  /** What `SetWindowsHookExW` did: returned a handle (0 on failure) or raised. */
  datatype InstallOutcome = Handle(h: int) | Raised

  class HookSystem {
    /** The global `hook_id`; 0 stands for both `None` and a null handle, which Python treats alike. */
    var hookId: int
    /** Whether the registry holds `DisableTaskMgr = 1`. */
    var taskManagerDisabled: bool
    /** The handles passed to `UnhookWindowsHookEx`, oldest first. */
    ghost var released: seq<int>

    /** A hook is installed and not yet released. */
    predicate HookActive()
      reads this
    {
      hookId != 0
    }

    /** The state when the program starts: no hook; the registry as the system left it. */
    constructor(registryDisabled: bool)
      ensures hookId == 0 && taskManagerDisabled == registryDisabled && released == []
    {
      hookId := 0;
      taskManagerDisabled := registryDisabled;
      released := [];
    }

    /**
     * `install_keyboard_hook`: stores whatever handle the call returned and
     * reports success when it is non-null; when the call raises, `hook_id`
     * keeps its value and the result is failure.
     */
    method InstallKeyboardHook(outcome: InstallOutcome) returns (ok: bool)
      modifies this
      ensures ok <==> outcome.Handle? && outcome.h != 0
      ensures ok <==> outcome.Handle? && HookActive()
      ensures hookId == (if outcome.Handle? then outcome.h else old(hookId))
      ensures taskManagerDisabled == old(taskManagerDisabled) && released == old(released)
    {
      match outcome
      case Handle(h) =>
        hookId := h;
        ok := hookId != 0;
      case Raised =>
        ok := false;
    }

    /** `uninstall_keyboard_hook`: releases the hook when there is one, and otherwise does nothing. */
    method UninstallKeyboardHook()
      modifies this
      ensures !HookActive()
      ensures released == old(released) + (if old(hookId) != 0 then [old(hookId)] else [])
      ensures taskManagerDisabled == old(taskManagerDisabled)
    {
      if hookId != 0 {
        released := released + [hookId];
        hookId := 0;
      }
    }

    /** `disable_task_manager`: sets the policy value when the registry write succeeds. */
    method DisableTaskManager(writeOk: bool)
      modifies this
      ensures taskManagerDisabled == (old(taskManagerDisabled) || writeOk)
      ensures hookId == old(hookId) && released == old(released)
    {
      if writeOk {
        taskManagerDisabled := true;
      }
    }

    /**
     * `enable_task_manager`: deletes the policy value when the key can be
     * opened for writing. Deleting a value that is absent raises, which
     * leaves the same state: not disabled.
     */
    method EnableTaskManager(keyWritable: bool)
      modifies this
      ensures taskManagerDisabled == (old(taskManagerDisabled) && !keyWritable)
      ensures hookId == old(hookId) && released == old(released)
    {
      if keyWritable {
        taskManagerDisabled := false;
      }
    }
  }
}
