/** The data of the rounding probes (src/vsh_tests/vsh_rounding_common.h). */
module VshRounding {

  /** The models that the tests record. */
  datatype Model = RN | RZ | RN_RN | RZ_RZ | TP_RZ | SEQ_RZ | WIN_RZ {
    /** Its name in the log. */
    function Name(): string {
      match this
      case RN => "rn"
      case RZ => "rz"
      case RN_RN => "rn_rn"
      case RZ_RZ => "rz_rz"
      case TP_RZ => "tp_rz"
      case SEQ_RZ => "seq_rz"
      case WIN_RZ => "win_rz"
    }
  }

  /** A 32-bit pattern. */
  type Bits = b: nat | b < 0x1_0000_0000

  datatype RoundingModel = RoundingModel(model: Model, bits: Bits)

  /** What a probe is compared with; an unchecked one is recorded only. */
  datatype Expectation = Expectation(checked: bool, expected: Bits, models: seq<RoundingModel>)

  datatype BinaryCase = BinaryCase(title: string, a: Bits, b: Bits, expectation: Expectation)

  datatype MadCase = MadCase(title: string, a: Bits, b: Bits, c: Bits, expectation: Expectation)

  /** A register: components x, y, z, w, numbered 0 to 3. */
  datatype Vec4 = Vec4(x: Bits, y: Bits, z: Bits, w: Bits) {
    function Get(k: nat): Bits
      requires k < 4
    {
      if k == 0 then x else if k == 1 then y else if k == 2 then z else w
    }

    function Set(k: nat, v: Bits): (r: Vec4)
      requires k < 4
      ensures r.Get(k) == v
      ensures forall j :: 0 <= j < 4 && j != k ==> r.Get(j) == Get(j)
    {
      if k == 0 then this.(x := v) else if k == 1 then this.(y := v)
      else if k == 2 then this.(z := v) else this.(w := v)
    }
  }

  datatype DotCase = DotCase(title: string, a: Vec4, b: Vec4, dp3: Expectation, dph: Expectation, dp4: Expectation)
}
