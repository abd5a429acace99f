# remap: accessor rules and the Replace rule, in Dafny

This project models two pieces of the remap mapping engine and proves properties of them.

- **ReflectionUtil** (`reflection_util.dfy`). These are the bean-accessor rules. They decide which methods are getters and setters, and which property name an accessor stands for. They also classify a collection instance as Set or List, and hold the tables of built-in types and of primitive default values. A reflected method is a `MethodSignature`: its name, its parameter count and its return type. A class object is a `JavaType`: a primitive (with `void`), a wrapper (with `java.lang.Void`), `String`, or any other class.
- **ReplaceTransformation** (`replace_transformation.dfy`). This is the Replace rule. It reads one source property. Unless the value is null and the rule skips nulls, it writes the transform function's result into one destination property. A bean is a `Bean` object whose property map is updated in place. Null is `None`. The transform function is a parameter that either returns a value or throws. `Replaced` is the pure function that specifies what the rule does to the destination's properties. `PerformTransformation` is proved against it.
- `results.dfy` holds the `Option`, `Result` and `Outcome` datatypes used for null values and for exceptions.

The model follows two rules of the code that differ from the JavaBeans 1.01 specification:

- A `boolean`- or `Boolean`-returning method is a getter only when its name starts with `is`. So `Boolean getX()` is not a getter.
- `toPropertyName` always lowers the first character. Section 8.8 of the JavaBeans 1.01 specification keeps a name that starts with two capitals. `TwoCapitalsDeparture` and `UrlExample` show the difference.

## Model

| member | source | states |
|---|---|---|
| `ReflectionUtil.IsBuildInType` | src/main/java/com/remondis/remap/ReflectionUtil.java:79-81 | true exactly for the eight wrappers of the non-void primitives and for String; false for the primitives and for java.lang.Void |
| `ReflectionUtil.BuildInTypesMembers` | src/main/java/com/remondis/remap/ReflectionUtil.java:45-54 | the built-in type table holds the eight wrappers and String, and nothing else |
| `ReflectionUtil.DefaultValue` | src/main/java/com/remondis/remap/ReflectionUtil.java:91-93 | a default value exists exactly for the eight non-void primitives; boolean gives false, char gives '\0', byte/short/int/long give 0 of that type, float/double give the zero of that type; wrappers, void and every other type give null |
| `ReflectionUtil.DefaultValuesMembers` | src/main/java/com/remondis/remap/ReflectionUtil.java:34-43 | the default-value table has one entry per non-void primitive: false for boolean, '\0' for char, 0 of the same type for byte/short/int/long, the zero of the same type for float/double |
| `ReflectionUtil.GetCollector` | src/main/java/com/remondis/remap/ReflectionUtil.java:103-111 | a Set gets the set collector, checked before List; a List that is not a Set gets the list collector; anything else is the unsupported-collection error; the class-name tag it carries is the model's abstraction of the instance passed to the exception |
| `ReflectionUtil.HasReturnType` | src/main/java/com/remondis/remap/ReflectionUtil.java:119-122 | false exactly for void.class; every other return type counts, java.lang.Void included |
| `ReflectionUtil.IsBool` | src/main/java/com/remondis/remap/ReflectionUtil.java:151-153 | true exactly for the primitive boolean and its wrapper Boolean |
| `ReflectionUtil.IsBoolGetter` | src/main/java/com/remondis/remap/ReflectionUtil.java:147-149 | true exactly when the return type is boolean or Boolean, whatever the name; such a method has a return type |
| `ReflectionUtil.HasArguments` | src/main/java/com/remondis/remap/ReflectionUtil.java:155-157 | true exactly when the method has at least one parameter |
| `ReflectionUtil.HasArgumentCount` | src/main/java/com/remondis/remap/ReflectionUtil.java:159-161 | true exactly when the parameter count equals the given count; so a negative count matches nothing, and zero matches exactly the methods without arguments |
| `ReflectionUtil.IsSetter` | src/main/java/com/remondis/remap/ReflectionUtil.java:128-134 | a setter is exactly a method named set… with exactly one parameter and void return type |
| `ReflectionUtil.IsGetter` | src/main/java/com/remondis/remap/ReflectionUtil.java:136-145 | a getter is exactly a method with no parameters and a non-void return type, named is… when it returns boolean/Boolean and get… otherwise |
| `ReflectionUtil.IsGetterOrSetter` | src/main/java/com/remondis/remap/ReflectionUtil.java:124-126 | true exactly for getters and setters; no method is both; an accessor's name starts with is (boolean getters) or with get/set (all others), so it is at least 2 or 3 characters long |
| `ReflectionUtil.BooleanGetIsNoGetter` | src/main/java/com/remondis/remap/ReflectionUtil.java:136-153 | a boolean- or Boolean-returning get… method is neither a getter nor a setter |
| `ReflectionUtil.LowerChar` | src/main/java/com/remondis/remap/ReflectionUtil.java:184 | lowering gives no capital; a non-capital is kept; an ASCII capital becomes the matching lower-case letter |
| `ReflectionUtil.FirstCharacterToLowerCase` | src/main/java/com/remondis/remap/ReflectionUtil.java:182-186 | fails exactly on the empty string (c[0] on an empty array); otherwise same length, first character lowered, every other character kept |
| `ReflectionUtil.ToPropertyName` | src/main/java/com/remondis/remap/ReflectionUtil.java:169-180 | boolean-returning methods drop 2 characters, other getters and setters 3, anything else is the argument error; a name shorter than 2 is the substring error; it succeeds iff the suffix is non-empty; the result has length of the name minus the prefix and differs from the suffix only at index 0, which is lowered |
| `ReflectionUtil.ToPropertyNameChecked` | src/main/java/com/remondis/remap/ReflectionUtil.java:163-180 | corrected version: succeeds only for getters and setters, never raises the substring error, and agrees with ToPropertyName on every accessor |
| `ReflectionUtil.NonAccessorGetsPropertyName` | src/main/java/com/remondis/remap/ReflectionUtil.java:171-172 | hasChildren() returning boolean is no accessor, yet ToPropertyName names it "sChildren"; the corrected version raises the argument error |
| `ReflectionUtil.AccessorRoundTrip` | src/main/java/com/remondis/remap/ReflectionUtil.java:128-186 | for a property p not starting with a capital, getP/isP/setP built by the JavaBeans patterns are classified as accessors and ToPropertyName gives back p |
| `ReflectionUtil.LowerCapitalized` | src/main/java/com/remondis/remap/ReflectionUtil.java:182-186 | lowering the first character undoes capitalisation of a name that does not start with a capital |
| `ReflectionUtil.TwoCapitalsDeparture` | src/main/java/com/remondis/remap/ReflectionUtil.java:169-186 | the property name equals the JavaBeans 8.8 decapitalisation of the suffix iff the suffix does not start with two capitals |
| `ReflectionUtil.UrlExample` | src/main/java/com/remondis/remap/ReflectionUtil.java:169-186 | getURL() gives "uRL", while JavaBeans decapitalisation keeps "URL" |
| `Transformations.Bean.ReadOrFail` | src/main/java/com/remondis/remap/ReplaceTransformation.java:37 | reading succeeds exactly for a property the bean has, with its current value; otherwise a read failure naming the property |
| `Transformations.Bean.WriteOrFail` | src/main/java/com/remondis/remap/ReplaceTransformation.java:44 | writing succeeds exactly for a property the bean has and changes only that property; a failure leaves the bean unchanged |
| `Transformations.Replaced` | src/main/java/com/remondis/remap/ReplaceTransformation.java:35-45 | an unreadable source fails first; a null value under skip-when-null leaves the destination as it was; otherwise the function is applied (to null too), and its exception is the failure, unchanged; when it returns but the destination property cannot be written, the failure is the write failure for that property; on success the destination property holds the function's result and no other key changes |
| `Transformations.SkipIgnoresTransformation` | src/main/java/com/remondis/remap/ReplaceTransformation.java:37-42 | under skip-when-null a null source leaves the destination unchanged whatever the function would do (so it is not called) |
| `Transformations.StrictAppliesToNull` | src/main/java/com/remondis/remap/ReplaceTransformation.java:39-44 | without skip-when-null the function is applied to a null source value and its result is written |
| `Transformations.SkipFlagChangesBehaviour` | src/test/java/com/remondis/remap/AssertMappingTest.java:344-396 | with the same function, the two skip modes give different results on a null source when the function's result differs from the current destination value, so the two modes are observably different rules |
| `Transformations.ReplaceIdempotent` | src/main/java/com/remondis/remap/ReplaceTransformation.java:35-45 | for a deterministic transform function (as the model's functions are), running the rule again on its own output leaves it unchanged |
| `Transformations.ReplaceTransformation.constructor` | src/main/java/com/remondis/remap/ReplaceTransformation.java:24-29 | GetTransformation and IsSkipWhenNull return exactly the constructor's arguments, and the properties are the ones given |
| `Transformations.ReplaceTransformation.ValidateTransformation` | src/main/java/com/remondis/remap/ReplaceTransformation.java:47-49 | validation never fails |
| `Transformations.ReplaceTransformation.ToStringTemplate` | src/main/java/com/remondis/remap/ReplaceTransformation.java:52-58 | the "skipping when null" template is used iff the rule skips nulls |
| `Transformations.ReplaceTransformation.PerformTransformation` | src/main/java/com/remondis/remap/ReplaceTransformation.java:35-45 | the outcome and the new destination are those of Replaced on the old properties; a failure leaves the destination unchanged; a distinct source bean is not changed |

## Left out

- `invokeMethodProxySafe` and `newInstance` (ReflectionUtil.java:202-235): Java reflection, proxy lookup and constructor invocation, with nothing to state beyond "call it".
- `primitiveNameMap` (ReflectionUtil.java:58-70): none of the modelled operations reads it.
- `GetCollector` returns a collector kind (`ToSet`/`ToList`), not a `java.util.stream.Collector`. A collection instance is reduced to whether its class implements Set and List.
- `ToPropertyName`: names are sequences of Unicode characters. Java's `length`, `substring` and `toCharArray` count UTF-16 code units instead. The two agree on names without supplementary characters. The unchecked boolean branch gives a different result or error when one of the first two characters is supplementary: for `boolean a𝑥()` Java returns the lone low surrogate, while the model gives the empty-name error.
- `FirstCharacterToLowerCase`: it lowers the first Unicode character, where Java lowers the first UTF-16 code unit.
- `LowerChar`: it covers ASCII letters only. `Character.toLowerCase` covers all of Unicode. Only "index 0 is lowered, everything else is kept" is stated in general.
- `DefaultValue`: the float and double zeros are tags without floating-point meaning.
- `ToStringTemplate`: only the choice of template is modelled, not the formatted text or `Properties.asString`.
- `ReplaceTransformation.PerformTransformation`: `readOrFail`/`writeOrFail` and the superclass `SkipWhenNullTransformation` are not part of this model. A read or write fails exactly when the bean lacks the property. The transform function is a pure total function that returns or throws. Side effects of the function are not modelled.
- `GetTransformation` and `IsSkipWhenNull` carry no contract of their own. The constructor's contract states what they return. How an expectation is matched against a rule by its skip flag is part of `AssertMapping`, which is not part of this model.

## Findings

| source | as written | input that shows it | evidently intended | confidence | as-written member | corrected member |
|---|---|---|---|---|---|---|
| src/main/java/com/remondis/remap/ReflectionUtil.java:169-180 | the boolean-return branch strips two characters without checking that the method is a getter or setter | `boolean hasChildren()` gives property "sChildren"; a boolean method named `x` raises StringIndexOutOfBoundsException instead of the IllegalArgumentException of line 177 | only getters and setters have a property name; every other method raises IllegalArgumentException | low: callers may only pass accessors; not executed | `ReflectionUtil.NonAccessorGetsPropertyName` | `ReflectionUtil.ToPropertyNameChecked` |
