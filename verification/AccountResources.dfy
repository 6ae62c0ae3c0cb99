/** Machine resources. vCPU is counted in sixteenths, the size of the smallest preset, so every amount is an integer. */
module AccountResources {

  datatype Dimension = Vcpu | Memory | Disk

  datatype Resources = Resources(vcpu: int, memoryMib: int, diskMb: int) {
    function At(d: Dimension): int {
      match d
      case Vcpu => vcpu
      case Memory => memoryMib
      case Disk => diskMb
    }

    function Plus(other: Resources): Resources {
      Resources(vcpu + other.vcpu, memoryMib + other.memoryMib, diskMb + other.diskMb)
    }

    function Minus(other: Resources): Resources {
      Resources(vcpu - other.vcpu, memoryMib - other.memoryMib, diskMb - other.diskMb)
    }

    function Times(instances: int): Resources {
      Resources(vcpu * instances, memoryMib * instances, diskMb * instances)
    }

    /** At most `other` in every dimension. */
    predicate Within(other: Resources) {
      vcpu <= other.vcpu && memoryMib <= other.memoryMib && diskMb <= other.diskMb
    }

    predicate NonNegative() {
      vcpu >= 0 && memoryMib >= 0 && diskMb >= 0
    }

    predicate Positive() {
      vcpu > 0 && memoryMib > 0 && diskMb > 0
    }
  }

  const ZERO := Resources(0, 0, 0)

  const ACCOUNT_LIMIT := Resources(1_500 * 16, 6 * 1_024 * 1_024, 30_000_000)

  predicate FitsAccountCapacity(reserved: Resources, requested: Resources, limit: Resources) {
    reserved.Plus(requested).Within(limit)
  }
}
