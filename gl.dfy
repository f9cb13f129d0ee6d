/** The slice of the OpenGL/shader interface the scene graph drives. Rendering is
    modelled as the sequence of state changes and draw calls it issues (a trace);
    GPU object names are opaque unsigned 32-bit integers. */
module Gl {
  import opened Glm

  const U32Modulus: int := 0x1_0000_0000

  newtype u32 = x: int | 0 <= x < 0x1_0000_0000

  /** static_cast<uint32_t>(n): the count modulo 2^32. */
  function ToU32(n: nat): (r: u32)
    ensures n < U32Modulus ==> r as int == n
    ensures r as int <= n
  {
    (n % U32Modulus) as u32
  }

  /** One observable rendering step. */
  datatype Event =
      /** glBindVertexArray(vao); 0 unbinds. */
    | BindVertexArray(vao: u32)
      /** program.setUniform(name, value) with an integer value. */
    | SetIntUniform(name: string, intValue: int)
      /** glActiveTexture(GL_TEXTURE0 + unit). */
    | ActiveTexture(unit: nat)
      /** glBindTexture(GL_TEXTURE_2D, texture); 0 unbinds. */
    | BindTexture2D(texture: u32)
      /** glDrawElements(GL_TRIANGLES, count, GL_UNSIGNED_INT, nullptr). */
    | DrawTriangles(count: u32)
      /** program.setUniform(name, value) with a 4x4 matrix value. */
    | SetMatUniform(name: string, matValue: Mat4)

  /** The GL context's allocator of vertex array names: the k-th call of
      glGenVertexArrays hands out vaoName(k). Which names the driver picks is
      not modelled; vaoName stands for that choice. */
  class Context {
    var arraysGenerated: nat

    method GenVertexArray(vaoName: nat -> u32) returns (vao: u32)
      modifies this
      ensures vao == vaoName(old(arraysGenerated))
      ensures arraysGenerated == old(arraysGenerated) + 1
    {
      vao := vaoName(arraysGenerated);
      arraysGenerated := arraysGenerated + 1;
    }
  }
}
