/** The parsed-value enum of src/config.rs, its constructors and `with_flags`. */
module Config {
  import opened Text

  /** `ParameterConfig`; the `String` variant is called `Str` here. */
  datatype ParameterConfig =
    | Boolean(flag: bool)
    | Integer(number: I64)
    | Str(text: String)
    | List(items: seq<String>)
    | CpuList(cpus: seq<U32>, flags: seq<String>)
    | Complex(entries: map<String, ParameterConfig>)

  function FromBool(value: bool): (r: ParameterConfig)
    ensures r.Boolean? && r.flag == value
  {
    Boolean(value)
  }

  function FromInt(value: I64): (r: ParameterConfig)
    ensures r.Integer? && r.number == value
  {
    Integer(value)
  }

  function FromString(value: String): (r: ParameterConfig)
    ensures r.Str? && r.text == value
  {
    Str(value)
  }

  function FromStringList(value: seq<String>): (r: ParameterConfig)
    ensures r.List? && r.items == value
  {
    List(value)
  }

  /** `from_cpu_list`: no flags yet. */
  function FromCpuList(cpus: seq<U32>): (r: ParameterConfig)
    ensures r.CpuList? && r.cpus == cpus && r.flags == []
  {
    CpuList(cpus, [])
  }

  /** `with_flags`: a CPU list gets these flags and keeps its CPUs; any other value is returned as it is. */
  function WithFlags(c: ParameterConfig, flags: seq<String>): (r: ParameterConfig)
    ensures c.CpuList? ==> r.CpuList? && r.cpus == c.cpus && r.flags == flags
    ensures !c.CpuList? ==> r == c
  {
    match c
    case CpuList(cpus, _) => CpuList(cpus, flags)
    case _ => c
  }

  /** Setting flags twice keeps the second set; on a fresh CPU list it gives exactly those CPUs and flags. */
  lemma WithFlagsLaws(c: ParameterConfig, cpus: seq<U32>, f1: seq<String>, f2: seq<String>)
    ensures WithFlags(WithFlags(c, f1), f2) == WithFlags(c, f2)
    ensures WithFlags(FromCpuList(cpus), f1) == CpuList(cpus, f1)
    ensures WithFlags(c, []) == c <==> !c.CpuList? || c.flags == []
  {
  }
}
