/**
 * The typed settings encoding over the registry key that holds a program's settings
 * (SinglePluginHost/Plugin/PluginSettings.cs, and the same static helpers in
 * Insta-Unblock/App.xaml.cs). A boolean is stored as a DWord 1 or 0, an int as a DWord,
 * a string as a String value; a getter falls back on its default when the value is missing,
 * has another kind, or cannot be read.
 */
module Registry {

  import opened Wrappers

  /** A C# `int`: what a DWord value is read back as and what `SetSettingInt` accepts. */
  newtype Int32 = x: int | -0x8000_0000 <= x < 0x8000_0000

  /** A value stored under a name, by the registry kind it was written with. */
  datatype RegValue =
    | DWord(n: Int32)   // read back as a boxed `int`
    | Str(s: string)    // read back as a `string`
    | OtherKind         // any other kind (QWord, binary, multi-string): neither `int` nor `string`

  class PluginSettings {
    /** False when the settings key could not be opened (`SettingKey` is null) or cannot be accessed. */
    const available: bool
    /** The values under the settings key, by name. */
    var values: map<string, RegValue>

    constructor (available: bool, values: map<string, RegValue>)
      ensures this.available == available && this.values == values
    {
      this.available := available;
      this.values := values;
    }

    /** `GetSettingKey`: the stored value, or None (C# null) when it is missing or unreadable. */
    function GetSettingKey(name: string): (r: Option<RegValue>)
      reads this
      ensures r.Some? <==> available && name in values
      ensures r.Some? ==> r.value == values[name]
    {
      if available && name in values then Some(values[name]) else None
    }

    /** True iff a value of DWord kind can be read under `name`. */
    function IsBoolKeySet(name: string): (r: bool)
      reads this
      ensures r <==> available && name in values && values[name].DWord?
    {
      match GetSettingKey(name)
      case Some(DWord(_)) => true
      case _ => false
    }

    function GetSettingBool(name: string, defaultValue: bool): (r: bool)
      reads this
      ensures !IsBoolKeySet(name) ==> r == defaultValue
      ensures IsBoolKeySet(name) ==> (r <==> values[name].n != 0)
    {
      match GetSettingKey(name)
      case Some(DWord(n)) => n != 0
      case _ => defaultValue
    }

    function GetSettingInt(name: string, defaultValue: Int32): (r: Int32)
      reads this
      ensures !IsBoolKeySet(name) ==> r == defaultValue
      ensures IsBoolKeySet(name) ==> r == values[name].n
    {
      match GetSettingKey(name)
      case Some(DWord(n)) => n
      case _ => defaultValue
    }

    /** A C# string that may be null is an `Option<string>`. */
    function GetSettingString(name: string, defaultValue: Option<string>): (r: Option<string>)
      reads this
      ensures !(available && name in values && values[name].Str?) ==> r == defaultValue
      ensures available && name in values && values[name].Str? ==> r == Some(values[name].s)
    {
      match GetSettingKey(name)
      case Some(Str(s)) => Some(s)
      case _ => defaultValue
    }

    /** `SetSettingKey`: writes one value; a key that cannot be accessed is left as it is. */
    method SetSettingKey(name: string, value: RegValue)
      modifies this
      ensures values == if available then old(values)[name := value] else old(values)
    {
      if available {
        values := values[name := value];
      }
    }

    /** `DeleteSetting`: removes one value (no error when it is missing). */
    method DeleteSetting(name: string)
      modifies this
      ensures values == if available then old(values) - {name} else old(values)
    {
      if available {
        values := values - {name};
      }
    }

    method SetSettingBool(name: string, value: bool)
      modifies this
      ensures values == if available then old(values)[name := DWord(if value then 1 else 0)] else old(values)
      ensures available ==> forall d :: GetSettingBool(name, d) == value
      ensures !available ==> forall d :: GetSettingBool(name, d) == d
      ensures forall other :: other != name ==> GetSettingKey(other) == old(GetSettingKey(other))
    {
      SetSettingKey(name, DWord(if value then 1 else 0));
    }

    method SetSettingInt(name: string, value: Int32)
      modifies this
      ensures values == if available then old(values)[name := DWord(value)] else old(values)
      ensures available ==> forall d :: GetSettingInt(name, d) == value
      ensures !available ==> forall d :: GetSettingInt(name, d) == d
      ensures forall other :: other != name ==> GetSettingKey(other) == old(GetSettingKey(other))
    {
      SetSettingKey(name, DWord(value));
    }

    /** A null `value` deletes the setting; any other value is stored as a String. */
    method SetSettingString(name: string, value: Option<string>)
      modifies this
      ensures values == if !available then old(values)
                        else if value.None? then old(values) - {name}
                        else old(values)[name := Str(value.value)]
      ensures available && value.Some? ==> forall d :: GetSettingString(name, d) == value
      ensures value.None? || !available ==> forall d :: GetSettingString(name, d) == d
      ensures forall other :: other != name ==> GetSettingKey(other) == old(GetSettingKey(other))
    {
      if value.None? {
        DeleteSetting(name);
      } else {
        SetSettingKey(name, Str(value.value));
      }
    }
  }
}
