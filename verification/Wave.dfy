/**
 The value types exchanged between the signal utilities and the widgets:
 the parameters of one sine wave and the spectral description of a waveform.
 */
module Wave {

  /** Parameters of a single displayed sine wave (amplitude 0-2, phase in degrees). */
  datatype WaveParams = WaveParams(amplitude: real, frequency: real, phase: real)

  /** One harmonic: index `k` (0 is the constant term), magnitude and phase in degrees. */
  datatype SpectralComponent = SpectralComponent(k: nat, amplitude: real, phase: real)

  /** The analyser's answer: the low harmonics and the energy they carry. */
  datatype SpectralData = SpectralData(components: seq<SpectralComponent>, energy: real)

  /** A value that may be absent, like the `undefined` of `Array.prototype.find`. */
  datatype Option<T> = None | Some(value: T)
}
