/** src/attribute/defs.rs, `AttributeTag`: the attribute names of section
    4.7 of The Java Virtual Machine Specification (Java SE 8). */
module AttributeTags {
  import opened Wrappers

  datatype AttributeTag =
    | SourceFile
    | InnerClasses
    | EnclosingMethod
    | SourceDebugExtension
    | BootstrapMethods
    | ConstantValue
    | Code
    | Exceptions
    | RuntimeVisibleParameterAnnotations
    | RuntimeInvisibleParameterAnnotations
    | AnnotationDefault
    | MethodParameters
    | Synthetic
    | Deprecated
    | Signature
    | RuntimeVisibleAnnotations
    | RuntimeInvisibleAnnotations
    | LineNumberTable
    | LocalVariableTable
    | LocalVariableTypeTable
    | StackMapTable
    | RuntimeVisibleTypeAnnotations
    | RuntimeInvisibleTypeAnnotations

  /** The name a class file uses for the attribute (Table 4.7-A..C). */
  function Name(t: AttributeTag): string
  {
    match t
    case SourceFile => "SourceFile"
    case InnerClasses => "InnerClasses"
    case EnclosingMethod => "EnclosingMethod"
    case SourceDebugExtension => "SourceDebugExtension"
    case BootstrapMethods => "BootstrapMethods"
    case ConstantValue => "ConstantValue"
    case Code => "Code"
    case Exceptions => "Exceptions"
    case RuntimeVisibleParameterAnnotations => "RuntimeVisibleParameterAnnotations"
    case RuntimeInvisibleParameterAnnotations => "RuntimeInvisibleParameterAnnotations"
    case AnnotationDefault => "AnnotationDefault"
    case MethodParameters => "MethodParameters"
    case Synthetic => "Synthetic"
    case Deprecated => "Deprecated"
    case Signature => "Signature"
    case RuntimeVisibleAnnotations => "RuntimeVisibleAnnotations"
    case RuntimeInvisibleAnnotations => "RuntimeInvisibleAnnotations"
    case LineNumberTable => "LineNumberTable"
    case LocalVariableTable => "LocalVariableTable"
    case LocalVariableTypeTable => "LocalVariableTypeTable"
    case StackMapTable => "StackMapTable"
    case RuntimeVisibleTypeAnnotations => "RuntimeVisibleTypeAnnotations"
    case RuntimeInvisibleTypeAnnotations => "RuntimeInvisibleTypeAnnotations"
  }

  /** `AttributeTag::from`: each of the 23 names gives its tag; any other
      string reaches `unreachable!`, an `Err(Unreachable)` here. */
  function From(input: string): (r: Result<AttributeTag>)
    ensures r.Err? ==> r.error == Unreachable
  {
    match input
    case "SourceFile" => Ok(SourceFile)
    case "InnerClasses" => Ok(InnerClasses)
    case "EnclosingMethod" => Ok(EnclosingMethod)
    case "SourceDebugExtension" => Ok(SourceDebugExtension)
    case "BootstrapMethods" => Ok(BootstrapMethods)
    case "ConstantValue" => Ok(ConstantValue)
    case "Code" => Ok(Code)
    case "Exceptions" => Ok(Exceptions)
    case "RuntimeVisibleParameterAnnotations" => Ok(RuntimeVisibleParameterAnnotations)
    case "RuntimeInvisibleParameterAnnotations" => Ok(RuntimeInvisibleParameterAnnotations)
    case "AnnotationDefault" => Ok(AnnotationDefault)
    case "MethodParameters" => Ok(MethodParameters)
    case "Synthetic" => Ok(Synthetic)
    case "Deprecated" => Ok(Deprecated)
    case "Signature" => Ok(Signature)
    case "RuntimeVisibleAnnotations" => Ok(RuntimeVisibleAnnotations)
    case "RuntimeInvisibleAnnotations" => Ok(RuntimeInvisibleAnnotations)
    case "LineNumberTable" => Ok(LineNumberTable)
    case "LocalVariableTable" => Ok(LocalVariableTable)
    case "LocalVariableTypeTable" => Ok(LocalVariableTypeTable)
    case "StackMapTable" => Ok(StackMapTable)
    case "RuntimeVisibleTypeAnnotations" => Ok(RuntimeVisibleTypeAnnotations)
    case "RuntimeInvisibleTypeAnnotations" => Ok(RuntimeInvisibleTypeAnnotations)
    case _ => Err(Unreachable)
  }

  /** Each tag's name converts back to that tag, so `From` accepts all 23
      names and no two names share a tag. */
  lemma FromName(t: AttributeTag)
    ensures From(Name(t)) == Ok(t)
  {
    match t
    case SourceFile => assert From("SourceFile") == Ok(SourceFile);
    case InnerClasses => assert From("InnerClasses") == Ok(InnerClasses);
    case EnclosingMethod => assert From("EnclosingMethod") == Ok(EnclosingMethod);
    case SourceDebugExtension => assert From("SourceDebugExtension") == Ok(SourceDebugExtension);
    case BootstrapMethods => assert From("BootstrapMethods") == Ok(BootstrapMethods);
    case ConstantValue => assert From("ConstantValue") == Ok(ConstantValue);
    case Code => assert From("Code") == Ok(Code);
    case Exceptions => assert From("Exceptions") == Ok(Exceptions);
    case RuntimeVisibleParameterAnnotations => assert From("RuntimeVisibleParameterAnnotations") == Ok(RuntimeVisibleParameterAnnotations);
    case RuntimeInvisibleParameterAnnotations => assert From("RuntimeInvisibleParameterAnnotations") == Ok(RuntimeInvisibleParameterAnnotations);
    case AnnotationDefault => assert From("AnnotationDefault") == Ok(AnnotationDefault);
    case MethodParameters => assert From("MethodParameters") == Ok(MethodParameters);
    case Synthetic => assert From("Synthetic") == Ok(Synthetic);
    case Deprecated => assert From("Deprecated") == Ok(Deprecated);
    case Signature => assert From("Signature") == Ok(Signature);
    case RuntimeVisibleAnnotations => assert From("RuntimeVisibleAnnotations") == Ok(RuntimeVisibleAnnotations);
    case RuntimeInvisibleAnnotations => assert From("RuntimeInvisibleAnnotations") == Ok(RuntimeInvisibleAnnotations);
    case LineNumberTable => assert From("LineNumberTable") == Ok(LineNumberTable);
    case LocalVariableTable => assert From("LocalVariableTable") == Ok(LocalVariableTable);
    case LocalVariableTypeTable => assert From("LocalVariableTypeTable") == Ok(LocalVariableTypeTable);
    case StackMapTable => assert From("StackMapTable") == Ok(StackMapTable);
    case RuntimeVisibleTypeAnnotations => assert From("RuntimeVisibleTypeAnnotations") == Ok(RuntimeVisibleTypeAnnotations);
    case RuntimeInvisibleTypeAnnotations => assert From("RuntimeInvisibleTypeAnnotations") == Ok(RuntimeInvisibleTypeAnnotations);
  }
}
