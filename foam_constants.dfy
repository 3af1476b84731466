/** Numerical constants of OpenFOAM and the C library, in double precision. */
module FoamConstants {

  /** VSMALL: the smallest value OpenFOAM treats as non-zero. */
  const VSmall: real := 1.0e-300

  /** M_PI, to the digits the C header gives. */
  const Pi: real := 3.14159265358979323846
}
