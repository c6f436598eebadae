/**
 * The parts of `document.body` that the theme code touches: its class list,
 * its inline custom properties (`style.setProperty`) and `style.paddingTop`.
 */
module Dom {

  /** `style.setProperty(name, value)`: an empty value removes the property. */
  function SetProp(style: map<string, string>, name: string, value: string): map<string, string> {
    if value == "" then style - {name} else style[name := value]
  }

  /** `style.getPropertyValue(name)`: the empty string when unset. */
  function GetProp(style: map<string, string>, name: string): string {
    if name in style then style[name] else ""
  }

  class Body {
    var classes: set<string>
    var style: map<string, string>
    var paddingTop: string

    constructor ()
      ensures classes == {} && style == map[] && paddingTop == ""
    {
      classes := {};
      style := map[];
      paddingTop := "";
    }

    method RemoveClasses(names: set<string>)
      modifies this
      ensures classes == old(classes) - names
      ensures style == old(style) && paddingTop == old(paddingTop)
    {
      classes := classes - names;
    }

    method AddClass(name: string)
      modifies this
      ensures classes == old(classes) + {name}
      ensures style == old(style) && paddingTop == old(paddingTop)
    {
      classes := classes + {name};
    }

    method SetProperty(name: string, value: string)
      modifies this
      ensures style == SetProp(old(style), name, value)
      ensures classes == old(classes) && paddingTop == old(paddingTop)
    {
      style := SetProp(style, name, value);
    }

    method GetPropertyValue(name: string) returns (value: string)
      ensures value == GetProp(style, name)
    {
      value := GetProp(style, name);
    }

    method SetPaddingTop(value: string)
      modifies this
      ensures paddingTop == value
      ensures classes == old(classes) && style == old(style)
    {
      paddingTop := value;
    }
  }
}
