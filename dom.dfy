/**
 * The slice of the browser DOM that the mobile menu controller touches:
 * an element's class list and attributes, and the document body's
 * `style.overflow`. A DOM call that would throw is modelled by a flag on
 * the object; a throwing call changes nothing and reports `threw`.
 */
module Dom {

  /** The class set after `classList.toggle(name, present)`; `add` is
      `present == true`, `remove` is `present == false`. */
  function WithClass(classes: set<string>, name: string, present: bool): (r: set<string>)
    ensures name in r <==> present
    ensures forall c :: c != name ==> (c in r <==> c in classes)
  {
    if present then classes + {name} else classes - {name}
  }

  /** Applying the same class update twice is the same as applying it once,
      and a later update of the same class overrides an earlier one. */
  lemma WithClassLastWins(classes: set<string>, name: string, first: bool, second: bool)
    ensures WithClass(WithClass(classes, name, first), name, second) == WithClass(classes, name, second)
  {
  }

  /** An HTML element as the controller sees it. */
  class Element {
    var classes: set<string>
    var attributes: map<string, string>
    /** `classList.add`, `classList.remove` and `classList.toggle` throw. */
    var classListThrows: bool
    /** `setAttribute` throws. */
    var setAttributeThrows: bool
    /** `classList.contains` throws. */
    var containsThrows: bool

    /** A well-behaved element with the given classes and attributes. */
    constructor (classes: set<string>, attributes: map<string, string>)
      ensures this.classes == classes && this.attributes == attributes
      ensures !classListThrows && !setAttributeThrows && !containsThrows
    {
      this.classes := classes;
      this.attributes := attributes;
      classListThrows, setAttributeThrows, containsThrows := false, false, false;
    }

    method ClassListAdd(name: string) returns (threw: bool)
      modifies this`classes
      ensures threw == classListThrows
      ensures classes == if threw then old(classes) else WithClass(old(classes), name, true)
    {
      threw := classListThrows;
      if !threw {
        classes := classes + {name};
      }
    }

    method ClassListRemove(name: string) returns (threw: bool)
      modifies this`classes
      ensures threw == classListThrows
      ensures classes == if threw then old(classes) else WithClass(old(classes), name, false)
    {
      threw := classListThrows;
      if !threw {
        classes := classes - {name};
      }
    }

    /** `classList.toggle(name, force)`: present afterwards iff `force`. */
    method ClassListToggle(name: string, force: bool) returns (threw: bool)
      modifies this`classes
      ensures threw == classListThrows
      ensures classes == if threw then old(classes) else WithClass(old(classes), name, force)
    {
      threw := classListThrows;
      if !threw {
        classes := if force then classes + {name} else classes - {name};
      }
    }

    method ClassListContains(name: string) returns (threw: bool, present: bool)
      ensures threw == containsThrows
      ensures present <==> !threw && name in classes
    {
      threw := containsThrows;
      present := !threw && name in classes;
    }

    method SetAttribute(name: string, value: string) returns (threw: bool)
      modifies this`attributes
      ensures threw == setAttributeThrows
      ensures attributes == if threw then old(attributes) else old(attributes)[name := value]
    {
      threw := setAttributeThrows;
      if !threw {
        attributes := attributes[name := value];
      }
    }
  }

  /** `document.body`, reduced to its inline `overflow` style. */
  class Body {
    var overflow: string
    /** Assigning `style.overflow` throws. */
    var styleThrows: bool

    constructor (overflow: string)
      ensures this.overflow == overflow && !styleThrows
    {
      this.overflow := overflow;
      styleThrows := false;
    }

    method SetOverflow(value: string) returns (threw: bool)
      modifies this`overflow
      ensures threw == styleThrows
      ensures overflow == if threw then old(overflow) else value
    {
      threw := styleThrows;
      if !threw {
        overflow := value;
      }
    }
  }
}
