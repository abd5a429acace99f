/** The Replace rule of a mapping: it reads one property of the source bean
    and writes the transform function's result for it into one property of
    the destination bean, unless the value read is null and the rule was
    declared to skip null values. */
module Transformations {
  import opened Results

  type PropertyName = string

  /** A bean's properties by name; None is a null value. */
  type Properties<V> = map<PropertyName, Option<V>>

  /** An exception raised by a caller-supplied transform function. */
  datatype Thrown = Thrown(description: string)

  /** One call of a transform function: it returns a value (null included)
      or throws. */
  datatype Invocation<V> = Returned(result: Option<V>) | Threw(exception: Thrown)

  /** The ways the rule's execution can end abruptly. */
  datatype TransformFailure =
    | ReadFailed(readProperty: PropertyName)    // readOrFail raised a MappingException
    | WriteFailed(writtenProperty: PropertyName)  // writeOrFail raised a MappingException
    | TransformThrew(exception: Thrown)          // the transform function's own exception

  /** The two message templates toString chooses between. */
  datatype MessageTemplate = ReplaceMsg | ReplaceSkippedMsg

  /** A bean whose properties the mapping reads and writes in place. A
      property that is missing from the map has no usable accessor. */
  class Bean<V> {
    var properties: Properties<V>

    constructor (properties: Properties<V>)
      ensures this.properties == properties
    {
      this.properties := properties;
    }

    /** readOrFail: the property's value, or a read failure. */
    method ReadOrFail(name: PropertyName) returns (r: Result<Option<V>, TransformFailure>)
      ensures r.Success? <==> name in properties
      ensures r.Success? ==> r.value == properties[name]
      ensures r.Failure? ==> r.error == ReadFailed(name)
    {
      if name in properties {
        r := Success(properties[name]);
      } else {
        r := Failure(ReadFailed(name));
      }
    }

    /** writeOrFail: sets the property, or fails and leaves the bean as it
        was. */
    method WriteOrFail(name: PropertyName, value: Option<V>) returns (outcome: Outcome<TransformFailure>)
      modifies this
      ensures outcome == Pass <==> name in old(properties)
      ensures outcome.Fail? ==> outcome.error == WriteFailed(name)
      ensures properties == if outcome == Pass then old(properties)[name := value] else old(properties)
    {
      if name in properties {
        properties := properties[name := value];
        outcome := Pass;
      } else {
        outcome := Fail(WriteFailed(name));
      }
    }
  }

  /** The destination properties after the rule has run on the given source
      properties, or the failure that ends it. */
  function Replaced<V>(source: Properties<V>, sourceProperty: PropertyName,
                       destination: Properties<V>, destinationProperty: PropertyName,
                       transformation: Option<V> -> Invocation<V>, skipWhenNull: bool)
    : (r: Result<Properties<V>, TransformFailure>)
    // only the destination property may change
    ensures r.Success? ==>
      && r.value.Keys == destination.Keys
      && forall k :: k in destination && k != destinationProperty ==> r.value[k] == destination[k]
    // an unreadable source property fails before anything else happens
    ensures r == Failure(ReadFailed(sourceProperty)) <==> sourceProperty !in source
    // a null value under skip-when-null leaves the destination as it was
    ensures sourceProperty in source && source[sourceProperty] == None && skipWhenNull ==>
      r == Success(destination)
    // otherwise the function is applied, to a null value too
    ensures sourceProperty in source && !(source[sourceProperty] == None && skipWhenNull) ==>
      var call := transformation(source[sourceProperty]);
      && (r.Success? <==> call.Returned? && destinationProperty in destination)
      && (r.Success? ==> r.value[destinationProperty] == call.result)
      && (call.Threw? ==> r == Failure(TransformThrew(call.exception)))
      && (call.Returned? && destinationProperty !in destination ==>
            r == Failure(WriteFailed(destinationProperty)))
  {
    if sourceProperty !in source then
      Failure(ReadFailed(sourceProperty))
    else if source[sourceProperty].None? && skipWhenNull then
      Success(destination)
    else
      match transformation(source[sourceProperty])
      case Threw(e) => Failure(TransformThrew(e))
      case Returned(v) =>
        if destinationProperty in destination then Success(destination[destinationProperty := v])
        else Failure(WriteFailed(destinationProperty))
  }

  /** Under skip-when-null, a null source value leaves the destination as it
      was whatever the function would do, so the function is not consulted:
      even one that always throws. */
  lemma SkipIgnoresTransformation<V>(source: Properties<V>, sourceProperty: PropertyName,
                                     destination: Properties<V>, destinationProperty: PropertyName,
                                     f: Option<V> -> Invocation<V>, g: Option<V> -> Invocation<V>)
    requires sourceProperty in source && source[sourceProperty] == None
    ensures Replaced(source, sourceProperty, destination, destinationProperty, f, true)
         == Replaced(source, sourceProperty, destination, destinationProperty, g, true)
         == Success(destination)
  {
  }

  /** In strict mode a null source value is handed to the function and its
      result is written. */
  lemma StrictAppliesToNull<V>(source: Properties<V>, sourceProperty: PropertyName,
                               destination: Properties<V>, destinationProperty: PropertyName,
                               f: Option<V> -> Invocation<V>)
    requires sourceProperty in source && source[sourceProperty] == None
    requires destinationProperty in destination && f(None).Returned?
    ensures Replaced(source, sourceProperty, destination, destinationProperty, f, false)
         == Success(destination[destinationProperty := f(None).result])
  {
  }

  /** The skip flag changes what the rule does: on a null source value whose
      transformed value differs from the destination's, the two modes end in
      different destinations. */
  lemma SkipFlagChangesBehaviour<V>(source: Properties<V>, sourceProperty: PropertyName,
                                    destination: Properties<V>, destinationProperty: PropertyName,
                                    f: Option<V> -> Invocation<V>)
    requires sourceProperty in source && source[sourceProperty] == None
    requires destinationProperty in destination
    requires f(None) != Returned(destination[destinationProperty])
    ensures Replaced(source, sourceProperty, destination, destinationProperty, f, true)
         != Replaced(source, sourceProperty, destination, destinationProperty, f, false)
  {
  }

  /** Running the rule a second time on its own output changes nothing more:
      the source is not touched and the same value is written again. */
  lemma ReplaceIdempotent<V>(source: Properties<V>, sourceProperty: PropertyName,
                             destination: Properties<V>, destinationProperty: PropertyName,
                             f: Option<V> -> Invocation<V>, skipWhenNull: bool)
    requires Replaced(source, sourceProperty, destination, destinationProperty, f, skipWhenNull).Success?
    ensures var once := Replaced(source, sourceProperty, destination, destinationProperty, f, skipWhenNull).value;
      Replaced(source, sourceProperty, once, destinationProperty, f, skipWhenNull) == Success(once)
  {
    var once := Replaced(source, sourceProperty, destination, destinationProperty, f, skipWhenNull).value;
    if !(source[sourceProperty].None? && skipWhenNull) {
      var v := f(source[sourceProperty]).result;
      assert once[destinationProperty := v] == once;
    }
  }

  /** ReplaceTransformation: a Replace rule between two properties, with its
      transform function and its skip-when-null flag. */
  class ReplaceTransformation<V> {
    const sourceProperty: PropertyName
    const destinationProperty: PropertyName
    const transformation: Option<V> -> Invocation<V>
    const skipWhenNull: bool

    constructor (sourceProperty: PropertyName, destinationProperty: PropertyName,
                 transformation: Option<V> -> Invocation<V>, skipWhenNull: bool)
      ensures this.sourceProperty == sourceProperty
      ensures this.destinationProperty == destinationProperty
      ensures GetTransformation() == transformation
      ensures IsSkipWhenNull() == skipWhenNull
    {
      this.sourceProperty := sourceProperty;
      this.destinationProperty := destinationProperty;
      this.transformation := transformation;
      this.skipWhenNull := skipWhenNull;
    }

    function GetTransformation(): Option<V> -> Invocation<V> {
      transformation
    }

    function IsSkipWhenNull(): bool {
      skipWhenNull
    }

    /** The rule checks nothing when the mapping is built: it never fails. */
    function ValidateTransformation(): (outcome: Outcome<TransformFailure>)
      ensures outcome == Pass
    {
      Pass
    }

    /** The template toString formats: the skipping one exactly when the rule
        skips null values. */
    function ToStringTemplate(): (t: MessageTemplate)
      ensures t == ReplaceSkippedMsg <==> IsSkipWhenNull()
      ensures t == ReplaceMsg <==> !IsSkipWhenNull()
    {
      if skipWhenNull then ReplaceSkippedMsg else ReplaceMsg
    }

    /** Reads the source property and, unless it is null and the rule skips
        null values, writes the transformed value into the destination
        property. Only that destination property can change; a failure
        leaves the destination as it was. */
    method PerformTransformation(sourceProperty: PropertyName, source: Bean<V>,
                                 destinationProperty: PropertyName, destination: Bean<V>)
      returns (outcome: Outcome<TransformFailure>)
      modifies destination
      ensures var expected := Replaced(old(source.properties), sourceProperty,
                                       old(destination.properties), destinationProperty,
                                       transformation, skipWhenNull);
        match expected
        case Success(after) => outcome == Pass && destination.properties == after
        case Failure(e) => outcome == Fail(e) && destination.properties == old(destination.properties)
      ensures source != destination ==> source.properties == old(source.properties)
    {
      var read := source.ReadOrFail(sourceProperty);
      if read.Failure? {
        return Fail(read.error);
      }
      var sourceValue := read.value;
      if sourceValue.None? && skipWhenNull {
        return Pass;
      }
      var call := transformation(sourceValue);
      if call.Threw? {
        return Fail(TransformThrew(call.exception));
      }
      outcome := destination.WriteOrFail(destinationProperty, call.result);
    }
  }
}
