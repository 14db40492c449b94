/** The gate catalog of the density-matrix state: the `Gates` enumeration, the
    name table `gateset_` (aliases included) and the gate names the state
    advertises in its operation set. */
module GateCatalog {
  import opened Common

  datatype Gate =
    | U1 | U2 | U3 | R | RX | RY | RZ | Id | X | Y | Z | H | S | Sdg | SX | SXdg
    | T | Tdg | CX | CY | CZ | Swap | RXX | RYY | RZZ | RZX | CCX | CP | Pauli | ECR

  /** The gate names listed in the state's `StateOpSet`. */
  const OpSetGateNames: set<string> := {
    "U", "CX", "u1", "u2", "u3", "u", "cx", "cy", "cz", "swap",
    "id", "x", "y", "z", "h", "s", "sdg", "t", "tdg", "ccx",
    "r", "rx", "ry", "rz", "rxx", "ryy", "rzz", "rzx", "p", "cp",
    "cu1", "sx", "sxdg", "x90", "delay", "pauli", "ecr"}

  /** `gateset_.find(name)`: the gate table, aliases included; None plays the
      part of `gateset_.end()`. */
  function Lookup(name: string): Option<Gate> {
    match name
    case "delay" => Some(Id)   case "id" => Some(Id)     case "x" => Some(X)
    case "y" => Some(Y)        case "z" => Some(Z)       case "s" => Some(S)
    case "sdg" => Some(Sdg)    case "h" => Some(H)       case "t" => Some(T)
    case "tdg" => Some(Tdg)    case "x90" => Some(SX)    case "sx" => Some(SX)
    case "sxdg" => Some(SXdg)  case "r" => Some(R)       case "rx" => Some(RX)
    case "ry" => Some(RY)      case "rz" => Some(RZ)
    case "p" => Some(U1)       case "u1" => Some(U1)     case "u2" => Some(U2)
    case "u3" => Some(U3)      case "u" => Some(U3)      case "U" => Some(U3)
    case "CX" => Some(CX)      case "cx" => Some(CX)     case "cy" => Some(CY)
    case "cz" => Some(CZ)      case "cp" => Some(CP)     case "cu1" => Some(CP)
    case "swap" => Some(Swap)  case "rxx" => Some(RXX)   case "ryy" => Some(RYY)
    case "rzz" => Some(RZZ)    case "rzx" => Some(RZX)   case "ecr" => Some(ECR)
    case "ccx" => Some(CCX)
    case "pauli" => Some(Pauli)
    case _ => None
  }

  /** The alias pairs of the table. */
  const AliasPairs: set<(string, string)> := {
    ("p", "u1"), ("u", "U"), ("u", "u3"), ("U", "u3"), ("x90", "sx"),
    ("cu1", "cp"), ("delay", "id"), ("CX", "cx")}

  /** The name that spells each gate as its enumerator does. */
  function CanonicalName(g: Gate): string {
    match g
    case U1 => "u1"    case U2 => "u2"    case U3 => "u3"    case R => "r"
    case RX => "rx"    case RY => "ry"    case RZ => "rz"    case Id => "id"
    case X => "x"      case Y => "y"      case Z => "z"      case H => "h"
    case S => "s"      case Sdg => "sdg"  case SX => "sx"    case SXdg => "sxdg"
    case T => "t"      case Tdg => "tdg"  case CX => "cx"    case CY => "cy"
    case CZ => "cz"    case Swap => "swap" case RXX => "rxx" case RYY => "ryy"
    case RZZ => "rzz"  case RZX => "rzx"  case CCX => "ccx"  case CP => "cp"
    case Pauli => "pauli" case ECR => "ecr"
  }

  /** Every gate of the enumeration is reachable from the table: looking up a
      gate's canonical name gives that gate back. */
  lemma CanonicalNameRoundTrip(g: Gate)
    ensures Lookup(CanonicalName(g)) == Some(g)
  {
  }

  /** The aliases of the table resolve to the same gate. */
  lemma AliasesResolve()
    ensures Lookup("p") == Lookup("u1") == Some(U1)
    ensures Lookup("u") == Lookup("U") == Lookup("u3") == Some(U3)
    ensures Lookup("x90") == Lookup("sx") == Some(SX)
    ensures Lookup("cu1") == Lookup("cp") == Some(CP)
    ensures Lookup("delay") == Lookup("id") == Some(Id)
    ensures Lookup("CX") == Lookup("cx") == Some(CX)
  {
  }

  /** A name is known to the table exactly when the state advertises it in its
      operation set; any other name is rejected. */
  lemma KnownNamesAreOpSetNames(name: string)
    ensures Lookup(name).Some? <==> name in OpSetGateNames
  {
  }

  /** Two names resolve to the same gate only when they are the same name or
      one of the listed alias pairs. */
  lemma OnlyListedAliases(a: string, b: string)
    requires Lookup(a).Some? && a != b && Lookup(a) == Lookup(b)
    ensures (a, b) in AliasPairs || (b, a) in AliasPairs
  {
  }
}
