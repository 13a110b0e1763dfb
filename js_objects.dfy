/** Plain JavaScript objects: besides their own keys, `obj[name]` answers
    the names inherited from `Object.prototype`. */
module JsObjects {

  /** The names every plain object (`{}`, an imported JSON object) already
      answers through `Object.prototype`: its methods, which are truthy
      functions, and `__proto__`, the prototype object itself. */
  const InheritedNames: set<string> := {
    "constructor", "hasOwnProperty", "isPrototypeOf", "propertyIsEnumerable",
    "toLocaleString", "toString", "valueOf", "__proto__",
    "__defineGetter__", "__defineSetter__", "__lookupGetter__", "__lookupSetter__"}

  /** No inherited name contains a '.', so each is one segment of a
      dot-separated path. */
  lemma NoDotInInheritedNames(name: string)
    requires name in InheritedNames
    ensures '.' !in name
  {
    if name == "constructor" || name == "hasOwnProperty" || name == "isPrototypeOf" {
    } else if name == "propertyIsEnumerable" || name == "toLocaleString" || name == "toString" {
    } else if name == "valueOf" || name == "__proto__" || name == "__defineGetter__" {
    } else {
      assert name in {"__defineSetter__", "__lookupGetter__", "__lookupSetter__"};
    }
  }
}
