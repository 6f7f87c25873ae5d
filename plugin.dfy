/**
 * What the taskbar plugin copies (Insta-Unblock-Plugin/InstaUnblockPlugin.cs and
 * Insta-Unblock-Plugin/Insta-Unblock-Plugin.cs) add around the file unblock manager: the
 * "Unblock" menu command, which writes the setting and raises two sticky "changed" flags,
 * and the getters through which the host polls and clears those flags.
 */
module Plugin {

  import opened Registry
  import opened UnblockManager

  class InstaUnblockPlugin {
    /** The file unblock manager, with its settings. */
    const manager: FileUnblockManager
    var isIconChanged: bool
    var isMenuChanged: bool

    constructor (manager: FileUnblockManager)
      ensures this.manager == manager && !isIconChanged && !isMenuChanged
    {
      this.manager := manager;
      isIconChanged, isMenuChanged := false, false;
    }

    /** Writes the "Unblocking" setting and tells the host that the icon and the menu changed. */
    method ChangeUnblockMode(unblock: bool)
      modifies this, manager.settings
      ensures isIconChanged && isMenuChanged
      ensures manager.settings.available ==> manager.IsUnblocking() == unblock
      ensures manager.settings.values == if manager.settings.available
        then old(manager.settings.values)[UnblockingSettingName := DWord(if unblock then 1 else 0)]
        else old(manager.settings.values)
    {
      manager.ChangeUnblockMode(unblock);
      isIconChanged := true;
      isMenuChanged := true;
    }

    /** The handler of the "Unblock" menu command: turns unblocking off when on, on when off. */
    method OnUnblockCommand()
      modifies this, manager.settings
      ensures isIconChanged && isMenuChanged
      ensures manager.settings.available ==> manager.IsUnblocking() == !old(manager.IsUnblocking())
      ensures manager.settings.values == if manager.settings.available
        then old(manager.settings.values)[UnblockingSettingName := DWord(if old(manager.IsUnblocking()) then 0 else 1)]
        else old(manager.settings.values)
    {
      ChangeUnblockMode(!manager.IsUnblocking());
    }

    /** Returns whether the icon changed since the last call, and clears the flag. */
    method GetIsIconChanged() returns (r: bool)
      modifies this`isIconChanged
      ensures r == old(isIconChanged) && !isIconChanged
    {
      r := isIconChanged;
      isIconChanged := false;
    }

    /** Returns whether the menu changed since the last call, and clears the flag. */
    method GetIsMenuChanged(beforeMenuOpening: bool) returns (r: bool)
      modifies this`isMenuChanged
      ensures r == old(isMenuChanged) && !isMenuChanged
    {
      r := isMenuChanged;
      isMenuChanged := false;
    }
  }
}
